/** The Dev agent: two attempts at a fix whose diffs parse, stays in scope and cites its hypothesis. */
module Dev {
  import opened LlmClient
  import opened Schemas
  import opened Structured
  import opened Text

  datatype FileChange = FileChange(repo: string, path: string, diff: string)

  datatype Plan = Plan(id: string, targetRepos: seq<string>)

  /** What the language model is asked for. */
  datatype Draft = Draft(
    changes: seq<FileChange>, commitMessage: string, prBody: string, branchName: string, reasoning: string)

  datatype FixProposal = FixProposal(
    id: string, planId: string, branchName: string, changes: seq<FileChange>, commitMessage: string, prBody: string)

  /******* Validating diffs *******/

  datatype DiffError = NoChanges | BadDiffs(failures: map<(string, string), string>)

  /** The parser's complaint about a diff, if it has one. */
  type DiffParser = string -> Option<string>

  predicate ValidChanges(parse: DiffParser, changes: seq<FileChange>) {
    changes != [] && forall i :: 0 <= i < |changes| ==> parse(changes[i].diff) == None
  }

  function KeyOf(c: FileChange): (string, string) { (c.repo, c.path) }

  /** The complaint per file that fails; of several about one file the last. */
  function Failures(parse: DiffParser, changes: seq<FileChange>): map<(string, string), string> {
    if changes == [] then map[]
    else
      var before, last := Failures(parse, changes[..|changes| - 1]), changes[|changes| - 1];
      if parse(last.diff).Some? then before[KeyOf(last) := parse(last.diff).value] else before
  }

  predicate FailsFor(parse: DiffParser, key: (string, string), c: FileChange) {
    KeyOf(c) == key && parse(c.diff).Some?
  }

  /** The last change to the file that fails, if one does. */
  function LastFailing(parse: DiffParser, changes: seq<FileChange>, key: (string, string)): (last: Option<nat>)
    ensures last.None? ==> forall j :: 0 <= j < |changes| ==> !FailsFor(parse, key, changes[j])
    ensures last.Some? ==>
      && last.value < |changes| && FailsFor(parse, key, changes[last.value])
      && forall j :: last.value < j < |changes| ==> !FailsFor(parse, key, changes[j])
  {
    if changes == [] then None
    else if FailsFor(parse, key, changes[|changes| - 1]) then Some(|changes| - 1)
    else
      var init := changes[..|changes| - 1];
      assert forall j :: 0 <= j < |init| ==> init[j] == changes[j];
      LastFailing(parse, init, key)
  }

  /** A file is named exactly when some change to it fails, and with the complaint about the last that does. */
  lemma {:induction false} FailuresName(parse: DiffParser, changes: seq<FileChange>, key: (string, string))
    ensures var last := LastFailing(parse, changes, key);
      && (key in Failures(parse, changes) <==> last.Some?)
      && (last.Some? ==> Some(Failures(parse, changes)[key]) == parse(changes[last.value].diff))
  {
    if changes == [] {
    } else {
      FailuresName(parse, changes[..|changes| - 1], key);
    }
  }

  lemma {:induction false} NoFailures(parse: DiffParser, changes: seq<FileChange>)
    ensures Failures(parse, changes) == map[] <==> forall i :: 0 <= i < |changes| ==> parse(changes[i].diff) == None
  {
    if changes == [] {
    } else {
      var n := |changes| - 1;
      NoFailures(parse, changes[..n]);
      assert forall i :: 0 <= i < n ==> changes[..n][i] == changes[i];
      if parse(changes[n].diff).Some? { assert KeyOf(changes[n]) in Failures(parse, changes); }
    }
  }

  function DiffErrorOf(parse: DiffParser, changes: seq<FileChange>): Option<DiffError> {
    if changes == [] then Some(NoChanges)
    else if Failures(parse, changes) == map[] then None
    else Some(BadDiffs(Failures(parse, changes)))
  }

  /** No error exactly when there are changes and each parses; otherwise the failures, by file. */
  method ValidateFileChanges(parse: DiffParser, changes: seq<FileChange>) returns (r: Option<DiffError>)
    ensures r == DiffErrorOf(parse, changes)
    ensures r.None? <==> ValidChanges(parse, changes)
  {
    NoFailures(parse, changes);
    if changes == [] { return Some(NoChanges); }
    var failures: map<(string, string), string> := map[];
    for k := 0 to |changes|
      invariant failures == Failures(parse, changes[..k])
    {
      assert changes[..k + 1][..k] == changes[..k];
      var error := parse(changes[k].diff);
      if error.Some? { failures := failures[KeyOf(changes[k]) := error.value]; }
    }
    assert changes[..|changes|] == changes;
    r := if failures == map[] then None else Some(BadDiffs(failures));
  }

  /******* One run *******/

  datatype Tried = SchemaAttempt | FirstAttempt | RetryAttempt

  datatype Failure =
    | SchemaFailure(error: string)
    | InvalidDiffs(attempt: nat)
    | OutOfScope(changes: seq<FileChange>)

  datatype Report =
    | Produced(proposal: FixProposal, reasoning: string)
    | Blocked(tried: seq<Tried>, failed: seq<Failure>)
    | Raised

  function FirstConfirmed(hs: seq<Hypothesis>): Option<Hypothesis> {
    var k := FirstIndex(hs, (h: Hypothesis) => h.status == confirmed);
    if k < |hs| then Some(hs[k]) else None
  }

  /** The hypothesis that counts is the first confirmed one. */
  lemma FirstConfirmedIs(hs: seq<Hypothesis>, k: nat)
    requires forall j :: 0 <= j < |hs| && j < k ==> hs[j].status != confirmed
    ensures k < |hs| && hs[k].status == confirmed ==> FirstConfirmed(hs) == Some(hs[k])
    ensures k >= |hs| ==> FirstConfirmed(hs) == None
  {
  }

  function Citation(id: string): string { "\n\n---\n_Hypothesis ref: " + id + "_" }

  function Cited(body: string, h: Option<Hypothesis>): string {
    if h.Some? && !Contains(body, h.value.id) then body + Citation(h.value.id) else body
  }

  function Outside(plan: Plan, changes: seq<FileChange>): seq<FileChange> {
    if changes == [] then []
    else
      var last := changes[|changes| - 1];
      Outside(plan, changes[..|changes| - 1]) + if last.repo in plan.targetRepos then [] else [last]
  }

  predicate InScope(plan: Plan, changes: seq<FileChange>) {
    forall i :: 0 <= i < |changes| ==> changes[i].repo in plan.targetRepos
  }

  lemma {:induction false} OutsideIsEmpty(plan: Plan, changes: seq<FileChange>)
    ensures Outside(plan, changes) == [] <==> InScope(plan, changes)
  {
    if changes == [] {
    } else {
      var n := |changes| - 1;
      OutsideIsEmpty(plan, changes[..n]);
      assert forall i :: 0 <= i < n ==> changes[..n][i] == changes[i];
      assert changes[n].repo in plan.targetRepos || Outside(plan, changes) != [];
    }
  }

  /** What is reported as outside is what changes other repositories. */
  lemma {:induction false} OutsideIs(plan: Plan, changes: seq<FileChange>, c: FileChange)
    ensures c in Outside(plan, changes) <==> c in changes && c.repo !in plan.targetRepos
  {
    if changes == [] {
    } else {
      OutsideIs(plan, changes[..|changes| - 1], c);
      assert changes == changes[..|changes| - 1] + [changes[|changes| - 1]];
    }
  }

  /** The checks on a draft whose diffs parse. */
  function Finish(d: Draft, plan: Plan, s: IncidentState, id: string, tried: seq<Tried>): Report {
    if Outside(plan, d.changes) != [] then Blocked(tried, [OutOfScope(Outside(plan, d.changes))])
    else
      Produced(
        FixProposal(id, plan.id, d.branchName, d.changes, d.commitMessage,
                    Cited(d.prBody, FirstConfirmed(s.hypotheses))),
        d.reasoning)
  }

  function SchemaReport(c: Completion<Draft>, tried: seq<Tried>, failed: seq<Failure>): Report {
    if c.Exhausted? then Blocked(tried, failed + [SchemaFailure(c.error)]) else Raised
  }

  /** What a run reports once the diffs of its first draft have failed. */
  function AfterRetry(second: Completion<Draft>, parse: DiffParser, plan: Plan, s: IncidentState, id: string): Report {
    if !second.Returned? then SchemaReport(second, [FirstAttempt, RetryAttempt], [InvalidDiffs(1)])
    else if ValidChanges(parse, second.value.changes)
    then Finish(second.value, plan, s, id, [FirstAttempt, RetryAttempt])
    else Blocked([FirstAttempt, RetryAttempt], [InvalidDiffs(1), InvalidDiffs(2)])
  }

  /** What a run reports, given what its two requests come to. */
  function Outcome(first: Completion<Draft>, second: Completion<Draft>, parse: DiffParser, plan: Plan, s: IncidentState,
                   id: string): Report {
    if !first.Returned? then SchemaReport(first, [SchemaAttempt], [])
    else if ValidChanges(parse, first.value.changes) then Finish(first.value, plan, s, id, [FirstAttempt])
    else AfterRetry(second, parse, plan, s, id)
  }

  /** The texts of a run: its prompts. */
  datatype Texts = Texts(system: string, request: string, echo: DiffError -> string, correct: DiffError -> string)

  function FirstTurns(texts: Texts): seq<Turn> { [Given(true, texts.request)] }

  function RetryTurns(texts: Texts, error: DiffError): seq<Turn> {
    [Given(true, texts.request), Given(false, texts.echo(error)), Given(true, texts.correct(error))]
  }

  /** What one request adds to the client's log. */
  function AskedOnce(before: seq<LlmClient.Event>, q: Question, rounds: nat -> Round<Draft>): seq<LlmClient.Event> {
    before + Trace(q.settings, Request(q.system, q.messages, Some(q.tool)), rounds(0).retries)
  }

  /** A second request follows exactly a draft with an error, which it states. */
  function Conversed(before: seq<LlmClient.Event>, s: Settings, tool: string, parse: DiffParser, texts: Texts,
                     first: nat -> Round<Draft>, second: nat -> Round<Draft>): seq<LlmClient.Event> {
    var once := AskedOnce(before, Question(s, texts.system, tool, FirstTurns(texts)), first);
    if !Final(first, 0).Returned? then once
    else
      match DiffErrorOf(parse, Final(first, 0).value.changes)
      case None => once
      case Some(e) => AskedOnce(once, Question(s, texts.system, tool, RetryTurns(texts, e)), second)
  }

  /** One request without retries of its own. */
  method Ask(client: Client, model: Model<Draft>, system: string, turns: seq<Turn>, replies: Replies)
    returns (c: Completion<Draft>)
    modifies client
    ensures c == Final(Rounds(client.settings, model, replies), 0)
    ensures client.log == AskedOnce(old(client.log), Question(client.settings, system, model.name, turns),
                                    Rounds(client.settings, model, replies))
    ensures Calls(client.log) <= Calls(old(client.log)) + Max(0, client.settings.maxRetries) + 1
  {
    var messages := new TurnList(turns);
    ghost var q := Question(client.settings, system, model.name, turns);
    ghost var rounds := Rounds(client.settings, model, replies);
    assert Logged(old(client.log), q, rounds, 1) == AskedOnce(old(client.log), q, rounds);
    c := CompleteTyped(client, system, messages, model, 0, replies);
    NestedBound(old(client.log), q, model, replies, 0);
  }

  /** The corrective request, after the first draft's diffs have failed. */
  method Retry(client: Client, model: Model<Draft>, parse: DiffParser, plan: Plan, s: IncidentState, id: string,
               texts: Texts, error: DiffError, replies: Replies)
    returns (r: Report)
    modifies client
    ensures var second := Rounds(client.settings, model, replies);
      && r == AfterRetry(Final(second, 0), parse, plan, s, id)
      && client.log == AskedOnce(old(client.log),
           Question(client.settings, texts.system, model.name, RetryTurns(texts, error)), second)
    ensures Calls(client.log) <= Calls(old(client.log)) + Max(0, client.settings.maxRetries) + 1
  {
    var tried, failed := [FirstAttempt, RetryAttempt], [InvalidDiffs(1)];
    var llm := Ask(client, model, texts.system, RetryTurns(texts, error), replies);
    if !llm.Returned? { return SchemaReport(llm, tried, failed); }
    var diffError := ValidateFileChanges(parse, llm.value.changes);
    if diffError.Some? {
      failed := failed + [InvalidDiffs(2)];
      assert failed == [InvalidDiffs(1), InvalidDiffs(2)];
      return Blocked(tried, failed);
    }
    r := Finish(llm.value, plan, s, id, tried);
  }

  /** The two requests and what they come to; the second is made only when the diffs of the first fail. */
  method RunDev(client: Client, model: Model<Draft>, parse: DiffParser, plan: Plan, s: IncidentState, id: string,
                texts: Texts, replies1: Replies, replies2: Replies)
    returns (r: Report)
    modifies client
    ensures var first, second := Rounds(client.settings, model, replies1), Rounds(client.settings, model, replies2);
      && r == Outcome(Final(first, 0), Final(second, 0), parse, plan, s, id)
      && client.log == Conversed(old(client.log), client.settings, model.name, parse, texts, first, second)
    ensures Calls(client.log) <= Calls(old(client.log)) + 2 * (Max(0, client.settings.maxRetries) + 1)
  {
    var llm := Ask(client, model, texts.system, FirstTurns(texts), replies1);
    if !llm.Returned? { return SchemaReport(llm, [SchemaAttempt], []); }
    var diffError := ValidateFileChanges(parse, llm.value.changes);
    if diffError.Some? {
      r := Retry(client, model, parse, plan, s, id, texts, diffError.value, replies2);
    } else {
      r := Finish(llm.value, plan, s, id, [FirstAttempt]);
    }
  }

  /** The proposal's body names the hypothesis, cited by the model or appended. */
  lemma CitedNames(body: string, h: Option<Hypothesis>)
    ensures body <= Cited(body, h)
    ensures h.None? || Contains(body, h.value.id) ==> Cited(body, h) == body
    ensures h.Some? ==> Contains(Cited(body, h), h.value.id)
  {
    if h.Some? && !Contains(body, h.value.id) {
      ContainsInfix(body + "\n\n---\n_Hypothesis ref: ", h.value.id, "_");
      assert Cited(body, h) == body + "\n\n---\n_Hypothesis ref: " + h.value.id + "_";
    }
  }

  /**
   Whatever the model answers, a proposal has changes, each of which parses and lies in the
   plan's repositories, and its body names the first confirmed hypothesis.
   */
  lemma ProposalsAreSound(first: Completion<Draft>, second: Completion<Draft>, parse: DiffParser, plan: Plan,
                          s: IncidentState, id: string)
    requires Outcome(first, second, parse, plan, s, id).Produced?
    ensures var p := Outcome(first, second, parse, plan, s, id).proposal;
      && ValidChanges(parse, p.changes) && InScope(plan, p.changes) && p.planId == plan.id
      && (FirstConfirmed(s.hypotheses).Some? ==> Contains(p.prBody, FirstConfirmed(s.hypotheses).value.id))
    ensures var r := Outcome(first, second, parse, plan, s, id);
      var d := if ValidChanges(parse, first.value.changes) then first.value else second.value;
      && r.proposal.changes == d.changes && r.proposal.commitMessage == d.commitMessage
      && r.proposal.branchName == d.branchName && d.prBody <= r.proposal.prBody
      && r.proposal.id == id && r.reasoning == d.reasoning
      && (FirstConfirmed(s.hypotheses).None? ==> r.proposal.prBody == d.prBody)
  {
    var d := if ValidChanges(parse, first.value.changes) then first.value else second.value;
    OutsideIsEmpty(plan, d.changes);
    CitedNames(d.prBody, FirstConfirmed(s.hypotheses));
  }

  /**
   A proposal is made exactly when a request returns a draft that parses and stays in scope, the
   second being made only after the diffs of the first failed.
   */
  lemma ProducedExactly(first: Completion<Draft>, second: Completion<Draft>, parse: DiffParser, plan: Plan,
                        s: IncidentState, id: string)
    ensures Outcome(first, second, parse, plan, s, id).Produced? <==>
      first.Returned? &&
        (if ValidChanges(parse, first.value.changes) then InScope(plan, first.value.changes)
         else second.Returned? && ValidChanges(parse, second.value.changes) && InScope(plan, second.value.changes))
  {
    if first.Returned? { OutsideIsEmpty(plan, first.value.changes); }
    if second.Returned? { OutsideIsEmpty(plan, second.value.changes); }
  }

  /** A run raises exactly when the request that decides fails in the client or in its final assertion. */
  lemma RaisesExactly(first: Completion<Draft>, second: Completion<Draft>, parse: DiffParser, plan: Plan,
                      s: IncidentState, id: string)
    ensures Outcome(first, second, parse, plan, s, id) == Raised <==>
      || first.ApiFailed? || first.AssertionFailed?
      || (first.Returned? && !ValidChanges(parse, first.value.changes)
            && (second.ApiFailed? || second.AssertionFailed?))
  {
  }

  /** Whoever is blocked is told what failed, in the order it failed; for changes out of scope only which. */
  lemma BlockedTells(first: Completion<Draft>, second: Completion<Draft>, parse: DiffParser, plan: Plan,
                     s: IncidentState, id: string)
    requires Outcome(first, second, parse, plan, s, id).Blocked?
    ensures var failed := Outcome(first, second, parse, plan, s, id).failed;
      && failed != []
      && (failed[0].SchemaFailure? <==> first.Exhausted?)
      && (first.Exhausted? ==> failed == [SchemaFailure(first.error)])
      && (failed[0].InvalidDiffs? ==>
            && failed[0] == InvalidDiffs(1) && |failed| == 2
            && failed[1] == if second.Exhausted? then SchemaFailure(second.error) else InvalidDiffs(2))
      && (failed[0].OutOfScope? ==>
            && |failed| == 1
            && exists d :: (Completion.Returned(d) == first || Completion.Returned(d) == second)
                 && ValidChanges(parse, d.changes)
                 && forall c :: c in failed[0].changes <==> c in d.changes && c.repo !in plan.targetRepos)
  {
    if first.Returned? {
      forall c ensures c in Outside(plan, first.value.changes) <==>
        c in first.value.changes && c.repo !in plan.targetRepos
      {
        OutsideIs(plan, first.value.changes, c);
      }
    }
    if second.Returned? {
      forall c ensures c in Outside(plan, second.value.changes) <==>
        c in second.value.changes && c.repo !in plan.targetRepos
      {
        OutsideIs(plan, second.value.changes, c);
      }
    }
  }

  /** The corrective conversation repeats the request and alternates between user and model. */
  lemma RetryTurnsAlternate(texts: Texts, error: DiffError)
    ensures var turns := RetryTurns(texts, error);
      && |turns| == 3 && turns[..1] == FirstTurns(texts)
      && IsUser(turns[0]) && !IsUser(turns[1]) && IsUser(turns[2])
      && turns[1].text == texts.echo(error) && turns[2].text == texts.correct(error)
  {
  }
}
