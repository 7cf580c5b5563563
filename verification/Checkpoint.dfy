/**
 Running an incident once: the state is saved after every node, and an incident with a saved
 state is never run again. Answers that run out are a process that stops half way; `lost` when
 it stops within or after its last node and before that node's save.
 */
module Checkpoint {
  import opened Graph
  import opened Outcome
  import opened Runs
  import opened Schemas
  import opened Text

  type Saved = map<string, IncidentState>

  /** The configuration of a run after some answers. */
  type Course = seq<Answers> -> Config

  /** The nodes a run executes, in order. */
  function NodesOf(run: Course, answers: seq<Answers>): seq<Node> {
    if answers == [] then []
    else
      var before := answers[..|answers| - 1];
      var at := run(before).at;
      NodesOf(run, before) + if at == End then [] else [at.node]
  }

  datatype Invocation = Invocation(seed: IncidentState, answers: seq<Answers>, lost: bool)

  /** The answers whose nodes were saved. */
  function Kept(i: Invocation): seq<Answers> {
    if i.lost && i.answers != [] then i.answers[..|i.answers| - 1] else i.answers
  }

  /** The call saves a state if the incident is not saved yet. */
  predicate Effective(i: Invocation) { Kept(i) != [] }

  /******* The log of one call *******/

  /** What happens to an incident, in order: a node runs, a state is saved. */
  datatype Entry = Ran(id: string, node: Node) | Put(id: string, state: IncidentState)

  /** Every node is followed by the save of the state it leaves. */
  function LogOf(run: Course, id: string, answers: seq<Answers>): seq<Entry> {
    if answers == [] then []
    else
      var before := answers[..|answers| - 1];
      var at := run(before).at;
      LogOf(run, id, before) + if at == End then [] else [Ran(id, at.node), Put(id, run(answers).state)]
  }

  /** The log of a call that finds nothing saved; a lost save leaves its node alone at the end. */
  function LogOfCall(run: Course, i: Invocation): seq<Entry> {
    var at := run(Kept(i)).at;
    LogOf(run, i.seed.incidentId, Kept(i))
      + if Kept(i) != i.answers && at != End then [Ran(i.seed.incidentId, at.node)] else []
  }

  /** The table that the saves of a log leave. */
  function Replay(saved: Saved, log: seq<Entry>): Saved {
    if log == [] then saved
    else
      var before, last := Replay(saved, log[..|log| - 1]), log[|log| - 1];
      if last.Put? then before[last.id := last.state] else before
  }

  /** What a call that finds nothing saved does: the last state it saves, whether it returns it, its nodes. */
  datatype Trace = Trace(last: IncidentState, done: bool, nodes: seq<Node>)

  function TraceIn(run: Course, i: Invocation): Trace {
    Trace(run(Kept(i)).state, run(Kept(i)).at == End, NodesOf(run, i.answers))
  }

  function TraceOf(w: World, i: Invocation): Trace { TraceIn(RunFrom(w, i.seed), i) }

  function Tracer(w: World): Invocation -> Trace { i => TraceOf(w, i) }

  /** `state` is None when the call raises or dies instead of returning. */
  datatype Result = Result(state: Option<IncidentState>, nodes: seq<Node>)

  function SavedAfter(trace: Invocation -> Trace, saved: Saved, i: Invocation): Saved {
    if i.seed.incidentId in saved || !Effective(i) then saved else saved[i.seed.incidentId := trace(i).last]
  }

  function ResultOf(trace: Invocation -> Trace, saved: Saved, i: Invocation): Result {
    if i.seed.incidentId in saved then Result(Some(saved[i.seed.incidentId]), [])
    else Result(if trace(i).done then Some(trace(i).last) else None, trace(i).nodes)
  }

  /******* The program *******/

  class Checkpointer {
    var saved: Saved
    /** Saves and node executions, in the order they happened. */
    ghost var log: seq<Entry>

    constructor ()
      ensures saved == map[] && log == []
    {
      saved := map[];
      log := [];
    }

    method Get(id: string) returns (s: Option<IncidentState>)
      ensures s == if id in saved then Some(saved[id]) else None
    {
      s := if id in saved then Some(saved[id]) else None;
    }

    method Put(id: string, s: IncidentState)
      modifies this
      ensures saved == old(saved)[id := s]
      ensures log == old(log) + [Entry.Put(id, s)]
    {
      saved := saved[id := s];
      log := log + [Entry.Put(id, s)];
    }
  }

  method RunNode(w: World, id: string, c: Config, x: Answers, cp: Checkpointer) returns (next: Config)
    requires c.at != End
    modifies cp`log
    ensures next == Step(w, c, x)
    ensures cp.log == old(cp.log) + [Ran(id, c.at.node)]
  {
    next := Step(w, c, x);
    cp.log := cp.log + [Ran(id, c.at.node)];
  }

  method RunAndSave(w: World, id: string, c: Config, x: Answers, cp: Checkpointer) returns (next: Config)
    requires c.at != End
    modifies cp
    ensures next == Step(w, c, x)
    ensures cp.log == old(cp.log) + [Ran(id, c.at.node), Entry.Put(id, next.state)]
    ensures cp.saved == old(cp.saved)[id := next.state]
  {
    next := RunNode(w, id, c, x, cp);
    cp.Put(id, next.state);
  }

  /** The run goes on by a step, and stays where it ended. */
  ghost predicate GoesOn(run: Course, w: World, xs: seq<Answers>) {
    xs != [] ==>
      var before := run(xs[..|xs| - 1]);
      run(xs) == if before.at == End then before else Step(w, before, xs[|xs| - 1])
  }

  ghost predicate IsCourse(run: Course, w: World, seed: IncidentState) {
    && run([]) == Config(At(IntakeNode), seed)
    && forall xs {:trigger GoesOn(run, w, xs)} :: GoesOn(run, w, xs)
  }

  lemma RunIsCourse(w: World, seed: IncidentState)
    ensures IsCourse(RunFrom(w, seed), w, seed)
  {
    forall xs: seq<Answers> ensures GoesOn(RunFrom(w, seed), w, xs) {
      if xs != [] { assert Run(w, seed, xs) == Step(w, Run(w, seed, xs[..|xs| - 1]), xs[|xs| - 1]); }
    }
  }

  lemma {:induction false} CourseStays(run: Course, w: World, seed: IncidentState, id: string, xs: seq<Answers>, n: nat)
    requires IsCourse(run, w, seed) && n <= |xs| && run(xs[..n]).at == End
    ensures run(xs) == run(xs[..n])
    ensures NodesOf(run, xs) == NodesOf(run, xs[..n])
    ensures LogOf(run, id, xs) == LogOf(run, id, xs[..n])
  {
    if n == |xs| {
      assert xs[..n] == xs;
    } else {
      var before := xs[..|xs| - 1];
      assert before[..n] == xs[..n];
      CourseStays(run, w, seed, id, before, n);
      assert GoesOn(run, w, xs);
    }
  }

  /** Once the graph has ended, or the answers have, the rest of the call changes nothing. */
  lemma CallIsOver(run: Course, w: World, i: Invocation, n: nat)
    requires IsCourse(run, w, i.seed) && n <= |Kept(i)|
    requires run(i.answers[..n]).at == End || n == |i.answers|
    ensures TraceIn(run, i)
      == Trace(run(i.answers[..n]).state, run(i.answers[..n]).at == End, NodesOf(run, i.answers[..n]))
    ensures LogOfCall(run, i) == LogOf(run, i.seed.incidentId, i.answers[..n])
    ensures Effective(i) <==> n > 0
  {
    assert Kept(i)[..n] == i.answers[..n];
    assert i.answers[..0] == [];
    if run(i.answers[..n]).at == End {
      CourseStays(run, w, i.seed, i.seed.incidentId, i.answers, n);
      CourseStays(run, w, i.seed, i.seed.incidentId, Kept(i), n);
    } else {
      assert i.answers[..n] == i.answers == Kept(i);
    }
  }

  /** When the last save is lost its node has run all the same. */
  lemma SaveIsLost(run: Course, i: Invocation, n: nat)
    requires i.lost && n + 1 == |i.answers| && run(i.answers[..n]).at != End
    ensures Kept(i) == i.answers[..n]
    ensures TraceIn(run, i)
      == Trace(run(i.answers[..n]).state, false, NodesOf(run, i.answers[..n]) + [run(i.answers[..n]).at.node])
    ensures LogOfCall(run, i)
      == LogOf(run, i.seed.incidentId, i.answers[..n]) + [Ran(i.seed.incidentId, run(i.answers[..n]).at.node)]
    ensures Effective(i) <==> n > 0
  {
  }

  lemma LogOfMore(run: Course, w: World, seed: IncidentState, id: string, xs: seq<Answers>, n: nat)
    requires IsCourse(run, w, seed) && n < |xs| && run(xs[..n]).at != End
    ensures run(xs[..n + 1]) == Step(w, run(xs[..n]), xs[n])
    ensures NodesOf(run, xs[..n + 1]) == NodesOf(run, xs[..n]) + [run(xs[..n]).at.node]
    ensures LogOf(run, id, xs[..n + 1])
      == LogOf(run, id, xs[..n]) + [Ran(id, run(xs[..n]).at.node), Entry.Put(id, run(xs[..n + 1]).state)]
  {
    assert xs[..n + 1][..n] == xs[..n];
    assert GoesOn(run, w, xs[..n + 1]);
  }

  /** Streams the graph to its end: run a node, save, run the next. */
  method Stream(w: World, i: Invocation, cp: Checkpointer, ghost run: Course) returns (done: bool, nodes: seq<Node>)
    requires IsCourse(run, w, i.seed)
    modifies cp
    ensures done == TraceIn(run, i).done && nodes == TraceIn(run, i).nodes
    ensures cp.log == old(cp.log) + LogOfCall(run, i)
    ensures cp.saved == if !Effective(i) then old(cp.saved)
                        else old(cp.saved)[i.seed.incidentId := TraceIn(run, i).last]
  {
    var id := i.seed.incidentId;
    var c := Config(At(IntakeNode), i.seed);
    nodes := [];
    var n := 0;
    assert i.answers[..0] == [];
    while c.at != End && n < |i.answers|
      invariant 0 <= n <= |Kept(i)|
      invariant c == run(i.answers[..n])
      invariant nodes == NodesOf(run, i.answers[..n])
      invariant cp.log == old(cp.log) + LogOf(run, id, i.answers[..n])
      invariant cp.saved == if n == 0 then old(cp.saved) else old(cp.saved)[id := c.state]
    {
      nodes := nodes + [c.at.node];
      if i.lost && n + 1 == |i.answers| {
        SaveIsLost(run, i, n);
        c := RunNode(w, id, c, i.answers[n], cp);
        return false, nodes;
      }
      LogOfMore(run, w, i.seed, id, i.answers, n);
      Regroup(old(cp.log), LogOf(run, id, i.answers[..n]),
              [Ran(id, c.at.node), Entry.Put(id, run(i.answers[..n + 1]).state)]);
      c := RunAndSave(w, id, c, i.answers[n], cp);
      n := n + 1;
    }
    done := c.at == End;
    CallIsOver(run, w, i, n);
  }

  /**
   One call. What it returns is what is saved; it returns exactly if the incident was saved
   before, or its own run reached the end and saved that, and then it returns the end of that run.
   */
  method RunOnce(w: World, i: Invocation, cp: Checkpointer) returns (r: Result)
    modifies cp
    ensures cp.saved == SavedAfter(Tracer(w), old(cp.saved), i)
    ensures cp.log == old(cp.log)
      + if i.seed.incidentId in old(cp.saved) then [] else LogOfCall(RunFrom(w, i.seed), i)
    ensures r == ResultOf(Tracer(w), old(cp.saved), i)
    ensures r.state.Some? ==> i.seed.incidentId in cp.saved && r.state.value == cp.saved[i.seed.incidentId]
    ensures r.state.Some? <==> i.seed.incidentId in old(cp.saved) || Run(w, i.seed, Kept(i)).at == End
    ensures i.seed.incidentId !in old(cp.saved) && Run(w, i.seed, Kept(i)).at == End ==>
      r.state == Some(Run(w, i.seed, Kept(i)).state)
    ensures i.seed.incidentId in old(cp.saved) ==>
      r.nodes == [] && cp.saved == old(cp.saved) && r.state == Some(old(cp.saved)[i.seed.incidentId])
  {
    var prior := cp.Get(i.seed.incidentId);
    if prior.Some? { return Result(prior, []); }
    RunIsCourse(w, i.seed);
    var done, nodes := Stream(w, i, cp, RunFrom(w, i.seed));
    if !done { return Result(None, nodes); }
    DoneIsEffective(w, i);
    var last := cp.Get(i.seed.incidentId);
    r := Result(last, nodes);
  }

  /** The same of the functions the theorems below are about. */
  lemma ReturnsWhatIsSaved(w: World, saved: Saved, i: Invocation)
    ensures var r, after := ResultOf(Tracer(w), saved, i), SavedAfter(Tracer(w), saved, i);
      && (r.state.Some? ==> i.seed.incidentId in after && r.state.value == after[i.seed.incidentId])
      && (r.state.Some? <==> i.seed.incidentId in saved || Run(w, i.seed, Kept(i)).at == End)
      && (i.seed.incidentId !in saved && Effective(i) ==>
            i.seed.incidentId in after && after[i.seed.incidentId] == Run(w, i.seed, Kept(i)).state)
      && forall id :: id != i.seed.incidentId ==>
           (id in after <==> id in saved) && (id in saved ==> after[id] == saved[id])
  {
    if TraceOf(w, i).done { DoneIsEffective(w, i); }
  }

  lemma DoneIsEffective(w: World, i: Invocation)
    requires TraceOf(w, i).done
    ensures Effective(i)
  {
  }

  /** The nodes of a log, in order. */
  function RanIn(log: seq<Entry>): seq<Node> {
    if log == [] then []
    else RanIn(log[..|log| - 1]) + if log[|log| - 1].Ran? then [log[|log| - 1].node] else []
  }

  lemma RanMore(log: seq<Entry>, e: Entry)
    ensures RanIn(log + [e]) == RanIn(log) + if e.Ran? then [e.node] else []
  {
    assert (log + [e])[..|log|] == log;
  }

  /** The nodes a call reports are those its log shows to have run. */
  lemma {:induction false} NodesAreLogged(run: Course, id: string, answers: seq<Answers>)
    ensures NodesOf(run, answers) == RanIn(LogOf(run, id, answers))
  {
    if answers == [] {
    } else {
      var before := answers[..|answers| - 1];
      NodesAreLogged(run, id, before);
      if run(before).at == End {
        assert LogOf(run, id, answers) == LogOf(run, id, before);
      } else {
        var log, ran, put := LogOf(run, id, before), Ran(id, run(before).at.node), Entry.Put(id, run(answers).state);
        RanMore(log, ran);
        RanMore(log + [ran], put);
        Regroup(log, [ran], [put]);
        assert [ran] + [put] == [ran, put];
      }
    }
  }

  /******* A call dies anywhere *******/

  lemma {:induction false} LogOfPrefix(run: Course, id: string, xs: seq<Answers>, p: nat) returns (n: nat, alone: bool)
    requires p <= |LogOf(run, id, xs)|
    ensures n <= |xs| && (alone ==> run(xs[..n]).at != End && n < |xs|)
    ensures LogOf(run, id, xs)[..p] == LogOf(run, id, xs[..n]) + if alone then [Ran(id, run(xs[..n]).at.node)] else []
  {
    var log := LogOf(run, id, xs);
    if p == |log| {
      n, alone := |xs|, false;
      assert xs[..n] == xs && log[..p] == log;
    } else {
      var before := xs[..|xs| - 1];
      var m := |LogOf(run, id, before)|;
      if p <= m {
        n, alone := LogOfPrefix(run, id, before, p);
        assert before[..n] == xs[..n] && log[..p] == LogOf(run, id, before)[..p];
      } else {
        n, alone := |before|, true;
        assert xs[..n] == before;
      }
    }
  }

  /**
   Wherever a call dies, after a node and before its save or between two nodes, what has happened
   is the whole log of a shorter call: the calls quantified over below include every death.
   */
  lemma DiesAsAShorterCall(run: Course, i: Invocation, p: nat) returns (j: Invocation)
    requires p <= |LogOfCall(run, i)|
    ensures j.seed == i.seed && j.answers <= i.answers
    ensures LogOfCall(run, j) == LogOfCall(run, i)[..p]
  {
    var id, log := i.seed.incidentId, LogOf(run, i.seed.incidentId, Kept(i));
    if p > |log| {
      j := i;
      assert LogOfCall(run, i)[..p] == LogOfCall(run, i);
    } else {
      assert LogOfCall(run, i)[..p] == log[..p];
      var n, alone := LogOfPrefix(run, id, Kept(i), p);
      var m := if alone then n + 1 else n;
      j := Invocation(i.seed, Kept(i)[..m], alone);
      assert Kept(j) == Kept(i)[..n];
    }
  }

  lemma ReplayMore(saved: Saved, log: seq<Entry>, e: Entry)
    ensures Replay(saved, log + [e]) == if e.Put? then Replay(saved, log)[e.id := e.state] else Replay(saved, log)
  {
    assert (log + [e])[..|log|] == log;
  }

  lemma ReplayPair(saved: Saved, log: seq<Entry>, id: string, node: Node, state: IncidentState)
    ensures Replay(saved, log + [Ran(id, node), Entry.Put(id, state)]) == Replay(saved, log)[id := state]
  {
    ReplayMore(saved, log, Ran(id, node));
    ReplayMore(saved, log + [Ran(id, node)], Entry.Put(id, state));
    assert log + [Ran(id, node)] + [Entry.Put(id, state)] == log + [Ran(id, node), Entry.Put(id, state)];
  }

  lemma {:induction false} ReplayLog(run: Course, w: World, seed: IncidentState, saved: Saved, id: string,
                                     xs: seq<Answers>)
    requires IsCourse(run, w, seed)
    ensures Replay(saved, LogOf(run, id, xs)) == if xs == [] then saved else saved[id := run(xs).state]
  {
    if xs == [] {
    } else {
      var before := xs[..|xs| - 1];
      ReplayLog(run, w, seed, saved, id, before);
      assert GoesOn(run, w, xs);
      if run(before).at != End {
        ReplayPair(saved, LogOf(run, id, before), id, run(before).at.node, run(xs).state);
      } else {
        assert LogOf(run, id, xs) == LogOf(run, id, before);
      }
    }
  }

  /** What is saved after a call is what the saves in its log leave. */
  lemma SavedIsReplayed(w: World, saved: Saved, i: Invocation)
    requires i.seed.incidentId !in saved
    ensures SavedAfter(Tracer(w), saved, i) == Replay(saved, LogOfCall(RunFrom(w, i.seed), i))
  {
    var run, id := RunFrom(w, i.seed), i.seed.incidentId;
    RunIsCourse(w, i.seed);
    ReplayLog(run, w, i.seed, saved, id, Kept(i));
    if Kept(i) != i.answers && run(Kept(i)).at != End {
      ReplayMore(saved, LogOf(run, id, Kept(i)), Ran(id, run(Kept(i)).at.node));
    } else {
      assert LogOfCall(run, i) == LogOf(run, id, Kept(i));
    }
  }

  /******* Any sequence of calls *******/

  function SavedAfterAll(trace: Invocation -> Trace, saved: Saved, calls: seq<Invocation>): Saved {
    if calls == [] then saved
    else SavedAfter(trace, SavedAfterAll(trace, saved, calls[..|calls| - 1]), calls[|calls| - 1])
  }

  /** The nodes all the calls execute for one incident, in order. */
  function NodesFor(trace: Invocation -> Trace, saved: Saved, calls: seq<Invocation>, id: string): seq<Node> {
    if calls == [] then []
    else
      var before, i := calls[..|calls| - 1], calls[|calls| - 1];
      NodesFor(trace, saved, before, id)
        + if i.seed.incidentId == id then ResultOf(trace, SavedAfterAll(trace, saved, before), i).nodes else []
  }

  function FirstFor(calls: seq<Invocation>, id: string): (k: nat)
    ensures k <= |calls|
  {
    FirstIndex(calls, (i: Invocation) => i.seed.incidentId == id && Effective(i))
  }

  lemma FirstForLast(calls: seq<Invocation>, id: string, n: nat)
    requires |calls| == n + 1
    ensures FirstFor(calls[..n], id) < n ==> FirstFor(calls, id) == FirstFor(calls[..n], id)
    ensures FirstFor(calls[..n], id) == n ==>
      FirstFor(calls, id) == if calls[n].seed.incidentId == id && Effective(calls[n]) then n else n + 1
  {
  }

  /**
   The first effective call for an incident decides for good: its state is what stays saved,
   whatever is called before and after it and for other incidents. A call that dies before the
   save of its first node is not effective; were the graph library's save of the input counted,
   which comes before that node, such a call would decide, with the seed as its state.
   */
  lemma {:induction false} FirstCallDecides(trace: Invocation -> Trace, saved: Saved, calls: seq<Invocation>,
                                            id: string)
    requires id !in saved
    ensures var k := FirstFor(calls, id);
      if k == |calls| then id !in SavedAfterAll(trace, saved, calls)
      else id in SavedAfterAll(trace, saved, calls) && SavedAfterAll(trace, saved, calls)[id] == trace(calls[k]).last
  {
    if calls == [] {
    } else {
      var n := |calls| - 1;
      FirstCallDecides(trace, saved, calls[..n], id);
      FirstForLast(calls, id, n);
      if FirstFor(calls[..n], id) < n {
        assert calls[..n][FirstFor(calls, id)] == calls[FirstFor(calls, id)];
      }
    }
  }

  lemma {:induction false} SavedStays(trace: Invocation -> Trace, saved: Saved, calls: seq<Invocation>, id: string)
    requires id in saved
    ensures id in SavedAfterAll(trace, saved, calls) && SavedAfterAll(trace, saved, calls)[id] == saved[id]
  {
    if calls == [] {
    } else {
      SavedStays(trace, saved, calls[..|calls| - 1], id);
    }
  }

  /** A saved incident stays as it is: no call for it executes a node, and each returns the same state. */
  lemma {:induction false} SavedForGood(trace: Invocation -> Trace, saved: Saved, calls: seq<Invocation>, i: Invocation)
    requires i.seed.incidentId in saved
    ensures NodesFor(trace, saved, calls, i.seed.incidentId) == []
    ensures ResultOf(trace, SavedAfterAll(trace, saved, calls), i) == Result(Some(saved[i.seed.incidentId]), [])
  {
    SavedStays(trace, saved, calls, i.seed.incidentId);
    if calls == [] {
    } else {
      SavedForGood(trace, saved, calls[..|calls| - 1], i);
      SavedStays(trace, saved, calls[..|calls| - 1], i.seed.incidentId);
    }
  }

  /******* How often an incident is acted on *******/

  function Count(nodes: seq<Node>): nat {
    if nodes == [] then 0 else Count(nodes[..|nodes| - 1]) + if nodes[|nodes| - 1] == CoordinatorNode then 1 else 0
  }

  lemma {:induction false} CountConcat(a: seq<Node>, b: seq<Node>)
    ensures Count(a + b) == Count(a) + Count(b)
  {
    if b == [] {
      assert a + b == a;
    } else {
      assert (a + b)[..|a + b| - 1] == a + b[..|b| - 1];
      CountConcat(a, b[..|b| - 1]);
    }
  }

  lemma CountOne(n: Node)
    ensures Count([n]) == if n == CoordinatorNode then 1 else 0
  {
    assert [n][..0] == [];
  }

  /** The end is reached by coordinating, or was reached already. */
  ghost predicate EndsByCoordinating(run: seq<Answers> -> Config, answers: seq<Answers>)
    requires answers != []
  {
    var before := run(answers[..|answers| - 1]).at;
    run(answers).at == End <==> before == End || before == At(CoordinatorNode)
  }

  lemma {:induction false} CoordinatedOnce(run: seq<Answers> -> Config, answers: seq<Answers>)
    requires run([]).at != End
    requires forall xs: seq<Answers> {:trigger EndsByCoordinating(run, xs)} :: xs != [] ==> EndsByCoordinating(run, xs)
    ensures Count(NodesOf(run, answers)) == if run(answers).at == End then 1 else 0
  {
    if answers == [] {
    } else {
      var before := answers[..|answers| - 1];
      CoordinatedOnce(run, before);
      assert EndsByCoordinating(run, answers);
      var at := run(before).at;
      CountConcat(NodesOf(run, before), if at == End then [] else [at.node]);
      if at != End { CountOne(at.node); }
    }
  }

  lemma TraceCoordinates(w: World, i: Invocation)
    ensures Count(TraceOf(w, i).nodes) == if Run(w, i.seed, i.answers).at == End then 1 else 0
    ensures !Effective(i) ==> Run(w, i.seed, i.answers).at != End
  {
    var run := RunFrom(w, i.seed);
    forall xs: seq<Answers> | xs != [] ensures EndsByCoordinating(run, xs) {
      var before := xs[..|xs| - 1];
      OnlyCoordinatorEnds(w, Run(w, i.seed, before), xs[|xs| - 1]);
    }
    CoordinatedOnce(run, i.answers);
    if !Effective(i) && i.answers != [] {
      assert i.answers[..|i.answers| - 1] == [];
      assert EndsByCoordinating(run, i.answers);
    }
  }

  /** Among all the calls only the first effective one can coordinate. */
  lemma {:induction false} OnlyFirstCoordinates(trace: Invocation -> Trace, saved: Saved, calls: seq<Invocation>,
                                                id: string)
    requires id !in saved
    requires forall i :: !Effective(i) ==> Count(trace(i).nodes) == 0
    ensures var k := FirstFor(calls, id);
      Count(NodesFor(trace, saved, calls, id)) == if k < |calls| then Count(trace(calls[k]).nodes) else 0
  {
    if calls == [] {
    } else {
      var n := |calls| - 1;
      var i := calls[n];
      OnlyFirstCoordinates(trace, saved, calls[..n], id);
      FirstCallDecides(trace, saved, calls[..n], id);
      FirstForLast(calls, id, n);
      if FirstFor(calls[..n], id) < n {
        assert calls[..n][FirstFor(calls, id)] == calls[FirstFor(calls, id)];
      }
      var nodes := ResultOf(trace, SavedAfterAll(trace, saved, calls[..n]), i).nodes;
      var more := if i.seed.incidentId == id then nodes else [];
      CountConcat(NodesFor(trace, saved, calls[..n], id), more);
    }
  }

  /**
   An incident is coordinated, and so acted on, at most once over all calls, wherever processes
   die; and exactly when the first effective call got that far.
   */
  lemma ActsAtMostOnce(w: World, saved: Saved, calls: seq<Invocation>, id: string)
    requires id !in saved
    ensures var k := FirstFor(calls, id);
      Count(NodesFor(Tracer(w), saved, calls, id))
        == if k < |calls| && Run(w, calls[k].seed, calls[k].answers).at == End then 1 else 0
  {
    forall i: Invocation ensures Count(Tracer(w)(i).nodes) == if Run(w, i.seed, i.answers).at == End then 1 else 0
      ensures !Effective(i) ==> Count(Tracer(w)(i).nodes) == 0
    {
      TraceCoordinates(w, i);
    }
    OnlyFirstCoordinates(Tracer(w), saved, calls, id);
  }

  /******* A process that stops half way *******/

  /** Intake has not run, or the run is investigating or planning, or over. */
  ghost predicate Underway(c: Config) {
    c.at == At(IntakeNode) || c.at == End || c.state.phase in {Investigating, Planning}
  }

  lemma StepPhase(w: World, c: Config, x: Answers)
    requires Underway(c)
    ensures Underway(Step(w, c, x)) && Step(w, c, x).at != At(IntakeNode)
  {
  }

  lemma {:induction false} RunPhase(w: World, seed: IncidentState, answers: seq<Answers>)
    ensures Underway(Run(w, seed, answers)) && (answers != [] ==> Run(w, seed, answers).at != At(IntakeNode))
  {
    if answers == [] {
    } else {
      var n := |answers| - 1;
      RunPhase(w, seed, answers[..n]);
      StepPhase(w, Run(w, seed, answers[..n]), answers[n]);
    }
  }

  lemma UnfinishedPhase(w: World, seed: IncidentState, answers: seq<Answers>)
    requires answers != [] && Run(w, seed, answers).at != End
    ensures Run(w, seed, answers).state.phase in {Investigating, Planning}
  {
    RunPhase(w, seed, answers);
  }

  /**
   A process that stops half way is never resumed: from fresh seeds, what every later call
   returns is settled exactly when the first effective call had reached the end and saved it.
   */
  lemma NeverResumed(w: World, calls: seq<Invocation>, i: Invocation)
    requires Sound(w) && FirstFor(calls, i.seed.incidentId) < |calls|
    requires Fresh(calls[FirstFor(calls, i.seed.incidentId)].seed)
    ensures var r := ResultOf(Tracer(w), SavedAfterAll(Tracer(w), map[], calls), i);
      var first := calls[FirstFor(calls, i.seed.incidentId)];
      && r.state.Some? && r.nodes == []
      && (r.state.value.phase in {Resolved, Escalated} <==> Run(w, first.seed, Kept(first)).at == End)
  {
    var first := calls[FirstFor(calls, i.seed.incidentId)];
    FirstCallDecides(Tracer(w), map[], calls, i.seed.incidentId);
    if Run(w, first.seed, Kept(first)).at == End {
      Finished(w, first.seed, Kept(first));
    } else {
      UnfinishedPhase(w, first.seed, Kept(first));
    }
  }

  /**
   For instance: a process dies after its first node, and from then on every call returns an
   incident under investigation.
   */
  lemma DiedUnsettled(w: World, seed: IncidentState, x: Answers, i: Invocation)
    requires i.seed.incidentId == seed.incidentId
    ensures var saved := SavedAfterAll(Tracer(w), map[], [Invocation(seed, [x], false)]);
      && ResultOf(Tracer(w), saved, i) == Result(Some(Accept(seed)), [])
      && Accept(seed).phase == Investigating
  {
    var first := Invocation(seed, [x], false);
    assert [x][..0] == [] && [first][..0] == [];
    assert Run(w, seed, []) == Config(At(IntakeNode), seed);
    assert Run(w, seed, [x]).state == Accept(seed);
  }
}
