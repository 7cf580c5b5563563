/**
 What every run keeps, and how every run ends. The seed is any state that is itself well
 formed; what the world answers is arbitrary.
 */
module Outcome {
  import Collectors
  import opened Coordinator
  import opened Executor
  import opened Graph
  import opened Investigator
  import opened Planner
  import opened Runs
  import opened Schemas
  import opened Signing
  import opened Text

  /******* What every state of a run satisfies *******/

  /** The ticks a timeline records. */
  function Ticks(timeline: seq<Event>): nat {
    if timeline == [] then 0
    else Ticks(timeline[..|timeline| - 1]) + if timeline[|timeline| - 1].kind == InvestigatorTick then 1 else 0
  }

  ghost predicate Named(hs: seq<Hypothesis>) {
    Distinct(Ids(hs)) && "" !in Ids(hs)
  }

  ghost predicate StrictlySorted(services: seq<string>) {
    Ordered(services) && Distinct(services)
  }

  ghost predicate WellFormed(w: World, s: IncidentState) {
    && Named(s.hypotheses)
    && Distinct(Collectors.FindingIds(s.findings))
    && StrictlySorted(s.servicesTouched)
    && s.attempts == Ticks(s.timeline)
    && AllVerify(VerifierOf(w.crypto), s.actionIntents)
  }

  lemma {:induction false} TicksConcat(a: seq<Event>, b: seq<Event>)
    ensures Ticks(a + b) == Ticks(a) + Ticks(b)
  {
    if b == [] {
      assert a + b == a;
    } else {
      assert (a + b)[..|a + b| - 1] == a + b[..|b| - 1];
      TicksConcat(a, b[..|b| - 1]);
    }
  }

  lemma OneEvent(timeline: seq<Event>, e: Event)
    ensures Ticks(timeline + [e]) == Ticks(timeline) + if e.kind == InvestigatorTick then 1 else 0
  {
  }

  lemma {:induction false} NoTicks(events: seq<Event>)
    requires forall e :: e in events ==> e.kind != InvestigatorTick
    ensures Ticks(events) == 0
  {
    if events == [] {
    } else {
      NoTicks(events[..|events| - 1]);
    }
  }

  lemma CoordinatorNeverTicks(s: IncidentState, v: Verifier, faults: Faults, e: Event)
    requires e in NewEvents(s, v, faults)
    ensures e.kind != InvestigatorTick
  {
  }

  lemma TickKeeps(w: World, s: IncidentState, p: Proposal)
    requires Sound(w) && WellFormed(w, s)
    ensures WellFormed(w, Investigator.InvestigatorNode(s, w.contentHash, p))
    ensures Ids(s.hypotheses) <= Ids(Investigator.InvestigatorNode(s, w.contentHash, p).hypotheses)
  {
    if s.attempts < MAX_ATTEMPTS {
      var proposed := EnsureIds(p.hypotheses, w.contentHash);
      MergeNamed(s.hypotheses, proposed);
      OneEvent(s.timeline, Event(InvestigatorTick, None));
    } else {
      OneEvent(s.timeline, Event(InvestigatorCapReached, None));
    }
  }

  lemma MergeNamed(existing: seq<Hypothesis>, proposed: seq<Hypothesis>)
    requires Named(existing) && "" !in Ids(proposed)
    ensures Named(Merge(existing, proposed))
    ensures Ids(existing) <= Ids(Merge(existing, proposed))
  {
    IdsConcat(existing, proposed);
    AddIdsDistinct([], Ids(existing + proposed));
    AddIdsMembers([], Ids(existing + proposed), "");
    AddIdsConcat([], Ids(existing), Ids(proposed));
    AddFreshIds(Ids(existing));
    AddIdsDistinct(Ids(existing), Ids(proposed));
  }

  lemma CollectKeeps(w: World, s: IncidentState, src: Collectors.Source)
    requires WellFormed(w, s)
    ensures WellFormed(w, Collectors.Collected(s, src))
  {
    Collectors.CollectedKeeps(s, src);
    OneEvent(s.timeline, Event(DispatchNoFocus, None));
    OneEvent(s.timeline, Collectors.DispatchEvent(src));
  }

  lemma PlanKeeps(w: World, s: IncidentState, d: Decision, now: int)
    requires Sound(w) && WellFormed(w, s)
    ensures WellFormed(w, Planner.PlannerNode(s, w.crypto, d, now))
  {
  }

  lemma CoordinationKeeps(w: World, s: IncidentState, faults: Faults)
    requires WellFormed(w, s)
    ensures WellFormed(w, Apply(s, Coordinated(s, VerifierOf(w.crypto), faults)))
  {
    var added := NewEvents(s, VerifierOf(w.crypto), faults);
    forall e | e in added ensures e.kind != InvestigatorTick {
      CoordinatorNeverTicks(s, VerifierOf(w.crypto), faults, e);
    }
    NoTicks(added);
    TicksConcat(s.timeline, added);
  }

  lemma StepKeepsWellFormed(w: World, c: Config, x: Answers)
    requires Sound(w) && WellFormed(w, c.state)
    ensures WellFormed(w, Step(w, c, x).state)
  {
    if c.at != End {
      match c.at.node
      case IntakeNode => OneEvent(c.state.timeline, Event(IntakeAccepted, None));
      case InvestigatorNode => TickKeeps(w, c.state, x.proposal);
      case CollectorsNode => CollectKeeps(w, c.state, x.source);
      case PlannerNode => PlanKeeps(w, c.state, x.decision, x.now);
      case CoordinatorNode => CoordinationKeeps(w, c.state, x.faults);
      case _ =>
    }
  }

  /**
   Every state a run goes through is well formed: hypothesis ids distinct and never empty,
   finding ids distinct, services strictly sorted, attempts equal to the ticks on the
   timeline, and every stored intent verifying.
   */
  lemma {:induction false} RunKeepsWellFormed(w: World, seed: IncidentState, answers: seq<Answers>)
    requires Sound(w) && WellFormed(w, seed)
    ensures WellFormed(w, Run(w, seed, answers).state)
  {
    if answers == [] {
    } else {
      var before := answers[..|answers| - 1];
      RunKeepsWellFormed(w, seed, before);
      StepKeepsWellFormed(w, Run(w, seed, before), answers[|answers| - 1]);
    }
  }

  /******* What only grows *******/

  /** `t` extends `s`: nothing recorded is lost or reordered, no service and no hypothesis dropped. */
  ghost predicate Extends(s: IncidentState, t: IncidentState) {
    && s.timeline <= t.timeline
    && s.findings <= t.findings
    && s.actionsTaken <= t.actionsTaken
    && s.actionIntents <= t.actionIntents
    && Ids(s.hypotheses) <= Ids(t.hypotheses)
    && Collectors.Set(s.servicesTouched) <= Collectors.Set(t.servicesTouched)
    && (t.incidentId, t.service, t.firedAt) == (s.incidentId, s.service, s.firedAt)
  }

  ghost predicate Listed(s: IncidentState) {
    Named(s.hypotheses) && Distinct(Collectors.FindingIds(s.findings)) && StrictlySorted(s.servicesTouched)
  }

  lemma StepExtends(w: World, c: Config, x: Answers)
    requires Sound(w) && Listed(c.state)
    ensures Extends(c.state, Step(w, c, x).state)
  {
    if c.at != End {
      match c.at.node
      case InvestigatorNode => TickExtends(w, c.state, x.proposal);
      case CollectorsNode => CollectExtends(c.state, x.source);
      case CoordinatorNode => CoordinationExtends(c.state, Coordinated(c.state, VerifierOf(w.crypto), x.faults));
      case _ =>
    }
  }

  lemma TickExtends(w: World, s: IncidentState, p: Proposal)
    requires Sound(w) && Named(s.hypotheses)
    ensures Extends(s, Investigator.InvestigatorNode(s, w.contentHash, p))
  {
    MergeNamed(s.hypotheses, EnsureIds(p.hypotheses, w.contentHash));
  }

  lemma CoordinationExtends(s: IncidentState, u: Update)
    requires s.timeline <= u.timeline && s.actionsTaken <= u.actionsTaken
    ensures Extends(s, Apply(s, u))
  {
  }

  lemma CollectExtends(s: IncidentState, src: Collectors.Source)
    requires Distinct(Collectors.FindingIds(s.findings)) && StrictlySorted(s.servicesTouched)
    ensures Extends(s, Collectors.Collected(s, src))
  {
  }

  lemma ExtendsTransitive(a: IncidentState, b: IncidentState, c: IncidentState)
    requires Extends(a, b) && Extends(b, c)
    ensures Extends(a, c)
  {
  }

  lemma LastStepExtends(w: World, seed: IncidentState, answers: seq<Answers>, n: nat)
    requires Sound(w) && WellFormed(w, seed) && |answers| == n + 1
    ensures Extends(Run(w, seed, answers[..n]).state, Run(w, seed, answers).state)
  {
    RunKeepsWellFormed(w, seed, answers[..n]);
    StepExtends(w, Run(w, seed, answers[..n]), answers[n]);
  }

  /** Along a run nothing recorded is lost or reordered, whatever comes after. */
  lemma {:induction false} RunExtends(w: World, seed: IncidentState, answers: seq<Answers>, more: seq<Answers>)
    requires Sound(w) && WellFormed(w, seed)
    ensures Extends(Run(w, seed, answers).state, Run(w, seed, answers + more).state)
  {
    if more == [] {
      assert answers + more == answers;
    } else {
      var m := |more| - 1;
      RunExtends(w, seed, answers, more[..m]);
      assert (answers + more)[..|answers| + m] == answers + more[..m];
      LastStepExtends(w, seed, answers + more, |answers| + m);
      ExtendsTransitive(Run(w, seed, answers).state, Run(w, seed, answers + more[..m]).state,
                        Run(w, seed, answers + more).state);
    }
  }

  /** A node changes only its own fields, and every node but the coordinator records one event, of its own kind. */
  lemma NodesOwnTheirFields(w: World, c: Config, x: Answers)
    requires c.at != End
    ensures var s, t := c.state, Step(w, c, x).state;
      match c.at.node
      case IntakeNode => t == s.(phase := Investigating, timeline := s.timeline + [Event(IntakeAccepted, None)])
      case InvestigatorNode =>
        if s.attempts < 5 then
          && t == s.(hypotheses := t.hypotheses, focus := t.focus, attempts := s.attempts + 1, timeline := t.timeline)
          && t.timeline == s.timeline + [Event(InvestigatorTick, None)]
        else t == s.(timeline := s.timeline + [Event(InvestigatorCapReached, None)])
      case CollectorsNode =>
        t == s.(findings := t.findings, servicesTouched := t.servicesTouched, timeline := t.timeline)
      case PlannerNode =>
        && t == s.(phase := Planning, actionIntents := t.actionIntents, timeline := t.timeline)
        && t.timeline == s.timeline + [Event(PlannerDecided, Some(x.decision.planId))]
      case CoordinatorNode => t == s.(phase := t.phase, actionsTaken := t.actionsTaken, timeline := t.timeline)
      case _ => t == s
    ensures c.at.node in {IntakeNode, Node.InvestigatorNode, Node.CollectorsNode, Node.PlannerNode} ==>
      |Step(w, c, x).state.timeline| == |c.state.timeline| + 1
  {
  }

  /** After a tick below the cap the collectors node has a focus exactly when something was proposed. */
  lemma FocusAfterTick(w: World, s: IncidentState, p: Proposal)
    requires Sound(w) && Named(s.hypotheses) && s.attempts < MAX_ATTEMPTS
    ensures Collectors.HasFocus(Investigator.InvestigatorNode(s, w.contentHash, p)) <==> p.hypotheses != []
  {
    var t := Investigator.InvestigatorNode(s, w.contentHash, p);
    FocusIsKnown(s.hypotheses, EnsureIds(p.hypotheses, w.contentHash), p.focus);
    if t.focus.value in Ids(t.hypotheses) {
      var i :| 0 <= i < |t.hypotheses| && Ids(t.hypotheses)[i] == t.focus.value;
      assert t.hypotheses[i].id == t.focus.value;
    }
  }

  /******* How a run ends *******/

  /** A seed nothing has been done for. */
  ghost predicate Fresh(s: IncidentState) {
    s.hypotheses == [] && s.actionIntents == [] && s.attempts == 0
  }

  function Planned(w: World, decided: Option<(Decision, int)>): seq<ActionIntent> {
    if decided.Some? && Mutates(decided.value.0) then [BuildIntent(w.crypto, decided.value.0, decided.value.1)] else []
  }

  /** Until the coordinator has run: no action yet, and the intents are the ones the planner was told to make. */
  ghost predicate Undone(w: World, seed: IncidentState, c: Config, h: History) {
    && c.state.actionsTaken == seed.actionsTaken
    && c.state.actionIntents == Planned(w, h.decided)
    && (h.plans > 0 <==> h.decided.Some?)
    && (c.at == At(Node.PlannerNode) || h.plans > 0 ==> AnyConfirmed(c.state.hypotheses))
  }

  /** What the run adds to the actions, in terms of what was decided and what raised. */
  function Done(w: World, h: History, none: bool): seq<Action> {
    var intents := Planned(w, h.decided);
    if intents == [] then if none then [NO_OP] else []
    else if h.faults.Some? && 0 in h.faults.value.execute then FailureActions(intents[0], h.faults.value)
    else [ForwardAction(intents[0], false)]
  }

  /** What an executor is asked for a single intent. */
  function OneCall(i: ActionIntent, faults: Faults): seq<Call> {
    if 0 in faults.execute then [Execute(i, RaiseAt(faults, 0)), Compensate(i, faults.compensate)]
    else [Execute(i, None)]
  }

  /** What executors are asked during the whole run. */
  function Called(w: World, h: History): seq<Call> {
    var intents := Planned(w, h.decided);
    if intents == [] || h.faults.None? then [] else OneCall(intents[0], h.faults.value)
  }

  function Ending(w: World, h: History, none: bool): Phase {
    if Planned(w, h.decided) == [] then if none then Resolved else Escalated
    else if h.faults.Some? && 0 in h.faults.value.execute then Escalated
    else Resolved
  }

  ghost predicate Progress(w: World, seed: IncidentState, c: Config, h: History) {
    if c.at == End then
      && c.state.actionsTaken == seed.actionsTaken + Done(w, h, c.state.hypotheses == [])
      && c.state.phase == Ending(w, h, c.state.hypotheses == [])
      && c.state.actionIntents == Planned(w, h.decided)
      && (h.plans > 0 <==> h.decided.Some?)
      && h.faults.Some?
      && (h.plans > 0 ==> AnyConfirmed(c.state.hypotheses))
    else Undone(w, seed, c, h)
  }

  lemma CoordinateNone(s: IncidentState, v: Verifier, faults: Faults)
    requires s.actionIntents == []
    ensures NewActions(s, v, faults) == if s.hypotheses == [] then [NO_OP] else []
    ensures NewPhase(s, v, faults) == if s.hypotheses == [] then Resolved else Escalated
    ensures NewCalls(s, v, faults) == []
  {
  }

  lemma CoordinateOne(s: IncidentState, v: Verifier, faults: Faults, i: ActionIntent)
    requires s.actionIntents == [i] && v(i) == Valid && AnyConfirmed(s.hypotheses)
    ensures NewActions(s, v, faults)
      == if 0 in faults.execute then FailureActions(i, faults) else [ForwardAction(i, false)]
    ensures NewPhase(s, v, faults) == if 0 in faults.execute then Escalated else Resolved
    ensures NewCalls(s, v, faults) == OneCall(i, faults)
  {
  }

  lemma EmptyFinishes(w: World, seed: IncidentState, c: Config, h: History, x: Answers)
    requires c.at == At(CoordinatorNode) && Undone(w, seed, c, h) && c.state.actionIntents == []
    ensures Progress(w, seed, Step(w, c, x), Observe(h, c.at, x))
  {
    CoordinateNone(c.state, VerifierOf(w.crypto), x.faults);
  }

  lemma PlannedFinishes(w: World, seed: IncidentState, c: Config, h: History, x: Answers)
    requires Sound(w) && c.at == At(CoordinatorNode) && Undone(w, seed, c, h) && c.state.actionIntents != []
    ensures Progress(w, seed, Step(w, c, x), Observe(h, c.at, x))
  {
    var (d, now) := h.decided.value;
    PlannerGate(w.crypto, d, now);
    CoordinateOne(c.state, VerifierOf(w.crypto), x.faults, BuildIntent(w.crypto, d, now));
  }

  lemma CoordinationFinishes(w: World, seed: IncidentState, c: Config, h: History, x: Answers)
    requires Sound(w) && c.at == At(CoordinatorNode) && Undone(w, seed, c, h)
    ensures Progress(w, seed, Step(w, c, x), Observe(h, c.at, x))
  {
    if c.state.actionIntents == [] {
      EmptyFinishes(w, seed, c, h, x);
    } else {
      PlannedFinishes(w, seed, c, h, x);
    }
  }

  lemma InvestigationIsUndone(w: World, seed: IncidentState, c: Config, h: History, x: Answers)
    requires c.at in {At(IntakeNode), At(Node.InvestigatorNode), At(Node.CollectorsNode)}
    requires Shape(0, c, h) && Undone(w, seed, c, h)
    ensures Undone(w, seed, Step(w, c, x), Observe(h, c.at, x))
  {
  }

  lemma PlanningIsUndone(w: World, seed: IncidentState, c: Config, h: History, x: Answers)
    requires c.at == At(Node.PlannerNode) && Shape(0, c, h) && Undone(w, seed, c, h)
    ensures Undone(w, seed, Step(w, c, x), Observe(h, c.at, x))
  {
  }

  lemma StepProgresses(w: World, seed: IncidentState, c: Config, h: History, x: Answers)
    requires Sound(w) && Shape(0, c, h) && Progress(w, seed, c, h)
    ensures Progress(w, seed, Step(w, c, x), Observe(h, c.at, x))
  {
    if c.at == At(CoordinatorNode) {
      CoordinationFinishes(w, seed, c, h, x);
    } else if c.at == At(Node.PlannerNode) {
      PlanningIsUndone(w, seed, c, h, x);
    } else if c.at != End {
      InvestigationIsUndone(w, seed, c, h, x);
    }
  }

  lemma CoordinationCalls(w: World, seed: IncidentState, c: Config, h: History, x: Answers)
    requires Sound(w) && c.at == At(CoordinatorNode) && Undone(w, seed, c, h)
    ensures StepCalls(w, c, x) == Called(w, Observe(h, c.at, x))
  {
    if c.state.actionIntents == [] {
      CoordinateNone(c.state, VerifierOf(w.crypto), x.faults);
    } else {
      var (d, now) := h.decided.value;
      PlannerGate(w.crypto, d, now);
      CoordinateOne(c.state, VerifierOf(w.crypto), x.faults, BuildIntent(w.crypto, d, now));
    }
  }

  /** No executor is called before the end, and then as decided. */
  lemma {:induction false} RunCallsAre(w: World, seed: IncidentState, answers: seq<Answers>)
    requires Sound(w) && Fresh(seed)
    ensures RunCalls(w, seed, answers)
      == if Run(w, seed, answers).at == End then Called(w, HistoryOf(w, seed, answers)) else []
  {
    if answers == [] {
    } else {
      var before := answers[..|answers| - 1];
      var c, h, x := Run(w, seed, before), HistoryOf(w, seed, before), answers[|answers| - 1];
      RunCallsAre(w, seed, before);
      RunProgresses(w, seed, before);
      OnlyCoordinatorEnds(w, c, x);
      if c.at == At(CoordinatorNode) { CoordinationCalls(w, seed, c, h, x); }
    }
  }

  lemma TickDoesNotEnd(w: World, c: Config, x: Answers)
    requires c.at == At(Node.InvestigatorNode)
    ensures Step(w, c, x).at != End
  {
  }

  lemma CollectingDoesNotEnd(w: World, c: Config, x: Answers)
    requires c.at == At(Node.CollectorsNode) || c.at == At(Node.PlannerNode)
    ensures Step(w, c, x).at != End
  {
  }

  /** Only the coordinator ends a run. */
  lemma OnlyCoordinatorEnds(w: World, c: Config, x: Answers)
    ensures Step(w, c, x).at == End <==> c.at == End || c.at == At(CoordinatorNode)
  {
    if c.at == At(Node.InvestigatorNode) {
      TickDoesNotEnd(w, c, x);
    } else if c.at == At(Node.CollectorsNode) || c.at == At(Node.PlannerNode) {
      CollectingDoesNotEnd(w, c, x);
    }
  }

  lemma {:induction false} RunProgresses(w: World, seed: IncidentState, answers: seq<Answers>)
    requires Sound(w) && Fresh(seed)
    ensures Progress(w, seed, Run(w, seed, answers), HistoryOf(w, seed, answers))
  {
    if answers == [] {
    } else {
      var before := answers[..|answers| - 1];
      RunProgresses(w, seed, before);
      RunHasShape(w, seed, before);
      StepProgresses(w, seed, Run(w, seed, before), HistoryOf(w, seed, before), answers[|answers| - 1]);
    }
  }

  /** The step is a tick below the cap that is given a hypothesis. */
  ghost predicate Proposes(before: Config, x: Answers, after: Config) {
    before.at == At(Node.InvestigatorNode) && before.state.attempts < MAX_ATTEMPTS && x.proposal.hypotheses != []
  }

  ghost predicate SomeProposal(w: World, seed: IncidentState, answers: seq<Answers>) {
    Sometime(RunFrom(w, seed), answers, Proposes)
  }

  lemma StepProposes(w: World, c: Config, x: Answers)
    ensures Step(w, c, x).state.hypotheses == [] <==> c.state.hypotheses == [] && !Proposes(c, x, Step(w, c, x))
  {
  }

  lemma {:induction false} EmptyExactly(w: World, seed: IncidentState, answers: seq<Answers>)
    requires seed.hypotheses == []
    ensures Run(w, seed, answers).state.hypotheses == [] <==> !SomeProposal(w, seed, answers)
  {
    if answers == [] {
    } else {
      var n := |answers| - 1;
      EmptyExactly(w, seed, answers[..n]);
      StepProposes(w, Run(w, seed, answers[..n]), answers[n]);
      SometimeLast(RunFrom(w, seed), answers, Proposes, n);
    }
  }

  lemma Finished(w: World, seed: IncidentState, answers: seq<Answers>)
    requires Sound(w) && Fresh(seed) && Run(w, seed, answers).at == End
    ensures var t, h := Run(w, seed, answers).state, HistoryOf(w, seed, answers);
      && h.faults.Some? && (h.decided.Some? <==> SomeConfirm(w, seed, answers))
      && (h.decided.Some? ==> SomeProposal(w, seed, answers))
      && t.actionIntents == Planned(w, h.decided)
      && t.actionsTaken == seed.actionsTaken + Done(w, h, !SomeProposal(w, seed, answers))
      && t.phase == Ending(w, h, !SomeProposal(w, seed, answers))
  {
    RunProgresses(w, seed, answers);
    RunHasShape(w, seed, answers);
    PlannerReachedExactly(w, seed, answers);
    EmptyExactly(w, seed, answers);
  }

  /** From a fresh seed eleven answers end every run, resolved or escalated, never half way. */
  lemma EveryRunSettles(w: World, seed: IncidentState, answers: seq<Answers>)
    requires Sound(w) && Fresh(seed) && |answers| >= 11
    ensures Run(w, seed, answers).at == End
    ensures Run(w, seed, answers).state.phase in {Resolved, Escalated}
  {
    RunsEnd(w, seed, answers);
    Finished(w, seed, answers);
  }

  /**
   A run in which no tick below the cap confirms a hypothesis never plans: with nothing ever
   proposed the incident is resolved by one no-op, otherwise escalated with no action.
   */
  lemma RunWithoutCause(w: World, seed: IncidentState, answers: seq<Answers>)
    requires Sound(w) && Fresh(seed) && Run(w, seed, answers).at == End
    requires !SomeConfirm(w, seed, answers)
    ensures var t, proposed := Run(w, seed, answers).state, SomeProposal(w, seed, answers);
      && t.actionIntents == []
      && t.phase == (if proposed then Escalated else Resolved)
      && t.actionsTaken == seed.actionsTaken + (if proposed then [] else [NO_OP])
    ensures RunCalls(w, seed, answers) == []
  {
    Finished(w, seed, answers);
    RunCallsAre(w, seed, answers);
  }

  /**
   A run that plans does what its one decision says: a mutating plan at confidence one half or
   more becomes one signed intent, executed once; any other decision escalates with no action.
   */
  lemma RunWithCause(w: World, seed: IncidentState, answers: seq<Answers>)
    requires Sound(w) && Fresh(seed) && Run(w, seed, answers).at == End
    requires SomeConfirm(w, seed, answers)
    ensures var t, h := Run(w, seed, answers).state, HistoryOf(w, seed, answers);
      && h.decided.Some? && h.faults.Some?
      && var (d, now), faults := h.decided.value, h.faults.value;
         if !Mutates(d) then
           && t.actionIntents == [] && t.phase == Escalated && t.actionsTaken == seed.actionsTaken
           && RunCalls(w, seed, answers) == []
         else var i := BuildIntent(w.crypto, d, now);
           && t.actionIntents == [i]
           && RunCalls(w, seed, answers) == OneCall(i, faults)
           && t.phase == (if 0 in faults.execute then Escalated else Resolved)
           && t.actionsTaken == seed.actionsTaken +
                if 0 in faults.execute then FailureActions(i, faults) else [ForwardAction(i, false)]
  {
    Finished(w, seed, answers);
    RunCallsAre(w, seed, answers);
  }

  /******* For instance: a cause confirmed too late *******/

  function Quiet(q: Answers, n: nat): seq<Answers> { seq(n, _ => q) }

  /** Nothing has been found in `j` ticks. */
  ghost predicate Idle(seed: IncidentState, c: Config, j: nat) {
    && c.at == At(Node.InvestigatorNode)
    && c.state == seed.(phase := Investigating, timeline := c.state.timeline, focus := c.state.focus, attempts := j)
  }

  lemma QuietTick(w: World, seed: IncidentState, c: Config, q: Answers, j: nat)
    requires Fresh(seed) && Idle(seed, c, j) && j < 4 && q.proposal.hypotheses == []
    ensures Idle(seed, Step(w, Step(w, c, q), q), j + 1)
  {
    var t := Step(w, c, q);
    assert EnsureIds([], w.contentHash) == [] && t.state.hypotheses == [];
    assert t.at == At(Node.CollectorsNode) && !Collectors.HasFocus(t.state);
  }

  lemma {:induction false} QuietTicks(w: World, seed: IncidentState, q: Answers, j: nat)
    requires Fresh(seed) && j <= 4 && q.proposal.hypotheses == []
    ensures Idle(seed, Run(w, seed, Quiet(q, 2 * j + 1)), j)
  {
    if j == 0 {
      assert Quiet(q, 1)[..0] == [];
      assert Run(w, seed, []) == Config(At(IntakeNode), seed);
    } else {
      QuietTicks(w, seed, q, j - 1);
      QuietTick(w, seed, Run(w, seed, Quiet(q, 2 * j - 1)), q, j - 1);
      RunMore(w, seed, Quiet(q, 2 * j - 1), q);
      RunMore(w, seed, Quiet(q, 2 * j), q);
      assert Quiet(q, 2 * j - 1) + [q] == Quiet(q, 2 * j) && Quiet(q, 2 * j) + [q] == Quiet(q, 2 * j + 1);
    }
  }

  lemma RunMore(w: World, seed: IncidentState, answers: seq<Answers>, x: Answers)
    ensures Run(w, seed, answers + [x]) == Step(w, Run(w, seed, answers), x)
  {
    assert (answers + [x])[..|answers|] == answers;
  }

  lemma DedupOne(h: Hypothesis)
    ensures Dedup([h]) == [h]
  {
    var ds := Dedup([h]);
    assert Ids([h]) == [h.id];
    AddFreshIds([h.id]);
    assert |ds| == |Ids(ds)| == 1 && Ids(ds)[0] == h.id;
    DedupKeeps([h], h.id);
    LookupDistinct(ds, 0);
    LookupDistinct([h], 0);
  }

  lemma LateTick(w: World, c: Config, x: Answers, h: Hypothesis)
    requires c.at == At(Node.InvestigatorNode) && c.state.attempts == 4 && c.state.hypotheses == []
    requires x.proposal.hypotheses == [h] && h.status == confirmed
    ensures Step(w, c, x).at == At(CoordinatorNode) && AnyConfirmed(Step(w, c, x).state.hypotheses)
    ensures Step(w, c, x).state.attempts == 5
  {
    var g := EnsureId(h, w.contentHash);
    assert EnsureIds([h], w.contentHash) == [g] && [] + [g] == [g];
    DedupOne(g);
    assert Step(w, c, x).state.hypotheses[0].status == confirmed;
  }

  lemma LateCoordination(w: World, c: Config, y: Answers)
    requires c.at == At(CoordinatorNode) && AnyConfirmed(c.state.hypotheses) && c.state.actionIntents == []
    ensures var t := Step(w, c, y);
      && t.at == End && t.state.phase == Escalated && t.state.hypotheses == c.state.hypotheses
      && t.state.attempts == c.state.attempts && t.state.actionsTaken == c.state.actionsTaken
  {
    CoordinateNone(c.state, VerifierOf(w.crypto), y.faults);
  }

  /**
   Four ticks without a hypothesis, and a confirmed one on the fifth: the cap is looked at first,
   the planner is never asked, and the incident is escalated with its cause confirmed.
   */
  lemma ConfirmedTooLate(w: World, seed: IncidentState, q: Answers, x: Answers, y: Answers, h: Hypothesis)
    requires Sound(w) && Fresh(seed) && q.proposal.hypotheses == []
    requires x.proposal.hypotheses == [h] && h.status == confirmed
    ensures var answers := Quiet(q, 9) + [x] + [y];
      && Run(w, seed, answers).at == End && Run(w, seed, answers).state.phase == Escalated
      && AnyConfirmed(Run(w, seed, answers).state.hypotheses) && !SomeConfirm(w, seed, answers)
      && Run(w, seed, answers).state.actionsTaken == seed.actionsTaken && RunCalls(w, seed, answers) == []
  {
    var answers := Quiet(q, 9) + [x] + [y];
    var c := Run(w, seed, Quiet(q, 9));
    QuietTicks(w, seed, q, 4);
    LateTick(w, c, x, h);
    NodesOwnTheirFields(w, c, x);
    LateCoordination(w, Step(w, c, x), y);
    RunMore(w, seed, Quiet(q, 9), x);
    RunMore(w, seed, Quiet(q, 9) + [x], y);
    LateMeansUnplanned(w, seed, answers);
  }

  /** A run that ends at the cap has not planned. */
  lemma LateMeansUnplanned(w: World, seed: IncidentState, answers: seq<Answers>)
    requires Sound(w) && Fresh(seed) && Run(w, seed, answers).at == End
    requires Run(w, seed, answers).state.attempts >= MAX_ATTEMPTS
    ensures !SomeConfirm(w, seed, answers) && RunCalls(w, seed, answers) == []
  {
    RunHasShape(w, seed, answers);
    PlannerReachedExactly(w, seed, answers);
    if !SomeConfirm(w, seed, answers) { RunWithoutCause(w, seed, answers); }
  }
}
