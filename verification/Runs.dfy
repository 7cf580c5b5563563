/**
 One incident's run through the graph. Every answer from outside, of the language model, the
 collectors and the execution environment, is arbitrary; a run is what a seed state and a
 sequence of answers determine.
 */
module Runs {
  import Collectors
  import opened Coordinator
  import opened Executor
  import opened Graph
  import opened Investigator
  import opened Planner
  import opened Schemas
  import opened Signing
  import opened Text

  datatype World = World(contentHash: string -> string, crypto: Crypto)

  ghost predicate Sound(w: World) {
    MatchingKeys(w.crypto) && forall t :: w.contentHash(t) != ""
  }

  /** What the outside world would answer during one step; the step uses the part its node asks for. */
  datatype Answers = Answers(
    proposal: Proposal, source: Collectors.Source, decision: Decision, now: int, faults: Faults)

  datatype Config = Config(at: Target, state: IncidentState)

  function Accept(s: IncidentState): IncidentState {
    s.(phase := Investigating, timeline := s.timeline + [Event(IntakeAccepted, None)])
  }

  /** One node execution. Dev, Verifier and Reviewer have no step of their own: no run gets there. */
  function Step(w: World, c: Config, a: Answers): Config {
    if c.at == End then c
    else match c.at.node
      case IntakeNode => Config(At(Node.InvestigatorNode), Accept(c.state))
      case InvestigatorNode =>
        var t := Investigator.InvestigatorNode(c.state, w.contentHash, a.proposal);
        Config(At(RouteAfterInvestigator(t)), t)
      case CollectorsNode => Config(At(Node.InvestigatorNode), Collectors.Collected(c.state, a.source))
      case PlannerNode => Config(At(CoordinatorNode), Planner.PlannerNode(c.state, w.crypto, a.decision, a.now))
      case CoordinatorNode =>
        Config(End, Apply(c.state, Coordinated(c.state, VerifierOf(w.crypto), a.faults)))
      case _ => c
  }

  function Run(w: World, seed: IncidentState, answers: seq<Answers>): Config {
    if answers == [] then Config(At(IntakeNode), seed)
    else Step(w, Run(w, seed, answers[..|answers| - 1]), answers[|answers| - 1])
  }

  /** The calls of executors that a step makes. */
  function StepCalls(w: World, c: Config, a: Answers): seq<Call> {
    if c.at == At(CoordinatorNode) then NewCalls(c.state, VerifierOf(w.crypto), a.faults) else []
  }

  /** All the calls of executors that a run makes, in order. */
  function RunCalls(w: World, seed: IncidentState, answers: seq<Answers>): seq<Call> {
    if answers == [] then []
    else
      var before := answers[..|answers| - 1];
      RunCalls(w, seed, before) + StepCalls(w, Run(w, seed, before), answers[|answers| - 1])
  }

  /******* How long a run is *******/

  /** How often each node ran, and what the planner and the coordinator were answered. */
  datatype History = History(
    intakes: nat, ticks: nat, collects: nat, plans: nat, coordinations: nat,
    decided: Option<(Decision, int)>, faults: Option<Faults>)

  function Total(h: History): nat { h.intakes + h.ticks + h.collects + h.plans + h.coordinations }

  function Observe(h: History, at: Target, a: Answers): History {
    if at == End then h
    else match at.node
      case IntakeNode => h.(intakes := h.intakes + 1)
      case InvestigatorNode => h.(ticks := h.ticks + 1)
      case CollectorsNode => h.(collects := h.collects + 1)
      case PlannerNode => h.(plans := h.plans + 1, decided := Some((a.decision, a.now)))
      case CoordinatorNode => h.(coordinations := h.coordinations + 1, faults := Some(a.faults))
      case _ => h
  }

  function HistoryOf(w: World, seed: IncidentState, answers: seq<Answers>): History {
    if answers == [] then History(0, 0, 0, 0, 0, None, None)
    else
      var before := answers[..|answers| - 1];
      Observe(HistoryOf(w, seed, before), Run(w, seed, before).at, answers[|answers| - 1])
  }

  /** The ticks of a run that never plans. */
  function MaxTicks(attempts: nat): nat {
    if attempts < MAX_ATTEMPTS then MAX_ATTEMPTS - attempts else 1
  }

  /** Where a run is, given how often each node ran, from a seed with `a` attempts. */
  ghost predicate Shape(a: nat, c: Config, h: History) {
    var t := c.state.attempts;
    var counted := t == a + h.ticks && t < MAX_ATTEMPTS;
    var atCap := h.plans == 0 && h.ticks == MaxTicks(a) && t >= MAX_ATTEMPTS;
    if c.at == End then
      h.intakes == 1 && h.ticks == h.collects + 1 && h.coordinations == 1
        && ((h.plans == 1 && counted) || atCap)
    else match c.at.node
      case IntakeNode => Total(h) == 0 && t == a
      case InvestigatorNode =>
        h.intakes == 1 && h.ticks == h.collects && h.plans == 0 && h.coordinations == 0
          && (counted || (t == a && a >= MAX_ATTEMPTS && h.ticks == 0))
      case CollectorsNode =>
        h.intakes == 1 && h.ticks == h.collects + 1 && h.plans == 0 && h.coordinations == 0 && counted
      case PlannerNode =>
        h.intakes == 1 && h.ticks == h.collects + 1 && h.plans == 0 && h.coordinations == 0 && counted
      case CoordinatorNode =>
        h.intakes == 1 && h.ticks == h.collects + 1 && h.coordinations == 0
          && ((h.plans == 1 && counted) || atCap)
      case _ => false
  }

  lemma StepKeepsShape(w: World, a: nat, c: Config, h: History, x: Answers)
    requires Shape(a, c, h)
    ensures Shape(a, Step(w, c, x), Observe(h, c.at, x))
  {
  }

  lemma StepIsCounted(w: World, a: nat, c: Config, h: History, x: Answers)
    requires Shape(a, c, h)
    ensures Total(Observe(h, c.at, x)) == Total(h) + if c.at == End then 0 else 1
  {
  }

  /** Every step takes an edge of the wired graph. */
  lemma StepFollowsWiring(w: World, a: nat, c: Config, h: History, x: Answers)
    requires Shape(a, c, h) && c.at != End
    ensures (c.at.node, Step(w, c, x).at) in Wiring()
  {
    if c.at.node == Node.InvestigatorNode {
      var t := Step(w, c, x).state;
      assert Step(w, c, x).at == At(RouteAfterInvestigator(t));
    }
  }

  lemma {:induction false} RunHasShape(w: World, seed: IncidentState, answers: seq<Answers>)
    ensures Shape(seed.attempts, Run(w, seed, answers), HistoryOf(w, seed, answers))
    ensures Run(w, seed, answers).at != End ==> Total(HistoryOf(w, seed, answers)) == |answers|
  {
    if answers == [] {
    } else {
      var before := answers[..|answers| - 1];
      RunHasShape(w, seed, before);
      StepKeepsShape(w, seed.attempts, Run(w, seed, before), HistoryOf(w, seed, before), answers[|answers| - 1]);
      StepIsCounted(w, seed.attempts, Run(w, seed, before), HistoryOf(w, seed, before), answers[|answers| - 1]);
    }
  }

  /**
   Termination with exact bounds, from any seed. A run that is answered often enough ends; it
   takes two steps per tick and one more, and one more if it plans; a run that never plans
   ticks until the cap, one that plans stops short of it.
   */
  lemma RunsEnd(w: World, seed: IncidentState, answers: seq<Answers>)
    requires |answers| >= 2 * MaxTicks(seed.attempts) + 1
    ensures Run(w, seed, answers).at == End
    ensures var h := HistoryOf(w, seed, answers);
      && h.intakes == h.coordinations == 1 && h.collects == h.ticks - 1 && h.plans <= 1
      && Total(h) == 2 * h.ticks + h.plans + 1 <= 2 * MaxTicks(seed.attempts) + 1
      && (h.plans == 0 <==> h.ticks == MaxTicks(seed.attempts))
      && (h.plans == 0 <==> Run(w, seed, answers).state.attempts >= MAX_ATTEMPTS)
  {
    RunHasShape(w, seed, answers);
  }

  /** A tick that only reports the cap comes from a seed that was already there, and then it is the only tick. */
  lemma CapOnlyFromTheSeed(w: World, seed: IncidentState, answers: seq<Answers>)
    requires Run(w, seed, answers).at == At(Node.InvestigatorNode)
    ensures Run(w, seed, answers).state.attempts >= MAX_ATTEMPTS <==> seed.attempts >= MAX_ATTEMPTS
    ensures seed.attempts >= MAX_ATTEMPTS ==> HistoryOf(w, seed, answers).ticks == 0
  {
    RunHasShape(w, seed, answers);
  }

  lemma {:induction false} RunStays(w: World, seed: IncidentState, answers: seq<Answers>, more: seq<Answers>)
    requires Run(w, seed, answers).at == End
    ensures Run(w, seed, answers + more) == Run(w, seed, answers)
  {
    if more == [] {
      assert answers + more == answers;
    } else {
      var m := |more| - 1;
      RunStays(w, seed, answers, more[..m]);
      LastOfConcat(answers, more);
    }
  }

  lemma LastOfConcat<T>(a: seq<T>, b: seq<T>)
    requires b != []
    ensures (a + b)[..|a + b| - 1] == a + b[..|b| - 1]
    ensures (a + b)[|a + b| - 1] == b[|b| - 1]
  {
  }

  /** After the end nothing moves. */
  lemma {:induction false} EndIsFinal(w: World, seed: IncidentState, answers: seq<Answers>, more: seq<Answers>)
    requires Run(w, seed, answers).at == End
    ensures Run(w, seed, answers + more) == Run(w, seed, answers)
    ensures HistoryOf(w, seed, answers + more) == HistoryOf(w, seed, answers)
    ensures RunCalls(w, seed, answers + more) == RunCalls(w, seed, answers)
  {
    RunStays(w, seed, answers, more);
    if more == [] {
      assert answers + more == answers;
    } else {
      var m := |more| - 1;
      RunStays(w, seed, answers, more[..m]);
      LastOfConcat(answers, more);
      EndIsFinal(w, seed, answers, more[..m]);
    }
  }

  /******* When the planner is reached *******/

  ghost predicate HoldsAt<C, X>(run: seq<X> -> C, xs: seq<X>, p: (C, X, C) -> bool, i: nat)
    requires i < |xs|
  {
    p(run(xs[..i]), xs[i], run(xs[..i + 1]))
  }

  /** Some step of the run, from one configuration by one answer to the next, satisfies `p`. */
  ghost predicate Sometime<C, X>(run: seq<X> -> C, xs: seq<X>, p: (C, X, C) -> bool) {
    exists i: nat :: i < |xs| && HoldsAt(run, xs, p, i)
  }

  lemma HoldsInPrefix<C, X>(run: seq<X> -> C, xs: seq<X>, p: (C, X, C) -> bool, n: nat, i: nat)
    requires i < n <= |xs|
    ensures HoldsAt(run, xs[..n], p, i) == HoldsAt(run, xs, p, i)
  {
    assert xs[..n][..i] == xs[..i] && xs[..n][..i + 1] == xs[..i + 1];
  }

  lemma SometimeLast<C, X>(run: seq<X> -> C, xs: seq<X>, p: (C, X, C) -> bool, n: nat)
    requires |xs| == n + 1
    ensures Sometime(run, xs, p) <==> Sometime(run, xs[..n], p) || p(run(xs[..n]), xs[n], run(xs))
  {
    assert xs[..n + 1] == xs;
    if i: nat :| i < |xs| && HoldsAt(run, xs, p, i) {
      if i < n { HoldsInPrefix(run, xs, p, n, i); }
    }
    if i: nat :| i < n && HoldsAt(run, xs[..n], p, i) {
      HoldsInPrefix(run, xs, p, n, i);
    }
    if p(run(xs[..n]), xs[n], run(xs)) {
      assert HoldsAt(run, xs, p, n);
    }
  }

  function RunFrom(w: World, seed: IncidentState): seq<Answers> -> Config {
    answers => Run(w, seed, answers)
  }

  /** The step is a tick that leaves a confirmed hypothesis with attempts below the cap. */
  ghost predicate Confirms(before: Config, x: Answers, after: Config) {
    && before.at == At(Node.InvestigatorNode)
    && AnyConfirmed(after.state.hypotheses) && after.state.attempts < MAX_ATTEMPTS
  }

  ghost predicate SomeConfirm(w: World, seed: IncidentState, answers: seq<Answers>) {
    Sometime(RunFrom(w, seed), answers, Confirms)
  }

  ghost predicate Planned(c: Config, h: History) {
    h.plans == 1 || c.at == At(Node.PlannerNode)
  }

  lemma StepPlans(w: World, a: nat, c: Config, h: History, x: Answers)
    requires Shape(a, c, h)
    ensures Planned(Step(w, c, x), Observe(h, c.at, x)) <==> Planned(c, h) || Confirms(c, x, Step(w, c, x))
  {
  }

  /** The planner is reached exactly when some tick below the cap leaves a confirmed hypothesis. */
  lemma {:induction false} PlannerReachedExactly(w: World, seed: IncidentState, answers: seq<Answers>)
    ensures Planned(Run(w, seed, answers), HistoryOf(w, seed, answers)) <==> SomeConfirm(w, seed, answers)
  {
    if answers == [] {
    } else {
      var n := |answers| - 1;
      PlannerReachedExactly(w, seed, answers[..n]);
      RunHasShape(w, seed, answers[..n]);
      StepPlans(w, seed.attempts, Run(w, seed, answers[..n]), HistoryOf(w, seed, answers[..n]), answers[n]);
      SometimeLast(RunFrom(w, seed), answers, Confirms, n);
    }
  }
}
