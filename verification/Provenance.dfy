/**
 The whole system at the level of evidence: collectors that store blobs and answer, processes
 that each run one incident, the cache, and the saved states. The steps of all of them
 interleave freely; uploads fail, processes and collectors die, replies come late or never.
 */
module Provenance {
  import Cache
  import opened Collectors
  import opened Dispatch
  import opened EvidenceStore
  import opened Graph
  import M = MinioWriter
  import opened Outcome
  import opened Runs
  import opened Schemas
  import opened Text

  /** One collector invocation: before its upload, holding a reference, or over. */
  datatype Job = Working | HasRef(id: string) | Over

  /** One incident being run; `source` is an answer the collectors node has and the state has not. */
  datatype Process = Process(config: Config, source: Option<Source>)

  datatype System = System(
    objects: map<string, Payload>,
    jobs: map<nat, Job>,
    sent: set<WireOutput>,
    cache: map<string, Cache.Row>,
    saved: map<string, IncidentState>,
    live: map<string, Process>)

  datatype Action =
    | StartJob(job: nat)
    | Upload(job: nat, request: M.Request, id: string, up: M.Upload)
    | Send(job: nat, body: WireOutput)
    | KillJob(job: nat)
    | StartRun(incident: string, seed: IncidentState)
    | Receive(incident: string, collector: string, reply: Reply)
    | Hit(incident: string, key: string)
    | Remember(incident: string, key: string, at: int)
    | Advance(incident: string, answers: Answers)
    | Save(incident: string)
    | KillRun(incident: string)
    | Sweep(key: string)

  const EMPTY := System(map[], map[], {}, map[], map[], map[])

  /** The process is at the collectors node, with a question to ask and no answer yet. */
  predicate Asking(p: Process) {
    p.config.at == At(Node.CollectorsNode) && HasFocus(p.config.state) && p.source == None
  }

  /** A body in a reply is one that some collector sent; it may arrive late, twice, or with any status. */
  predicate Arrives(sent: set<WireOutput>, r: Reply) {
    r.Http? && r.body.Some? ==> r.body.value in sent
  }

  predicate CanAct(s: System, a: Action) {
    match a
    case StartJob(job) => job !in s.jobs
    case Upload(job, _, id, _) => job in s.jobs && s.jobs[job] == Working && id != ""
    case Send(job, body) => job in s.jobs && s.jobs[job] == HasRef(body.finding.evidenceId)
    case KillJob(job) => job in s.jobs
    case StartRun(incident, seed) => incident !in s.live && incident !in s.saved && seed.findings == []
    case Receive(incident, _, reply) => incident in s.live && Asking(s.live[incident]) && Arrives(s.sent, reply)
    case Hit(incident, key) => incident in s.live && Asking(s.live[incident]) && key in s.cache
    case Remember(incident, _, _) =>
      incident in s.live && s.live[incident].source.Some?
        && s.live[incident].source.value.FromCollector? && s.live[incident].source.value.answer.Answered?
    case Advance(incident, _) => incident in s.live && !Asking(s.live[incident])
    case Save(incident) => incident in s.live
    case KillRun(incident) => incident in s.live
    case Sweep(key) => key in s.cache
  }

  function Advanced(w: World, p: Process, x: Answers): Process {
    Process(Step(w, p.config, if p.source.Some? then x.(source := p.source.value) else x), None)
  }

  function Next(w: World, s: System, a: Action): System
    requires CanAct(s, a)
  {
    match a
    case StartJob(job) => s.(jobs := s.jobs[job := Working])
    case Upload(job, request, id, up) =>
      s.(objects := M.Stored(s.objects, request, id, up),
         jobs := s.jobs[job := if M.Accepted(request) && up.how == Done then HasRef(id) else Over])
    case Send(job, body) => s.(sent := s.sent + {body}, jobs := s.jobs[job := Over])
    case KillJob(job) => s.(jobs := s.jobs[job := Over])
    case StartRun(incident, seed) => s.(live := s.live[incident := Process(Config(At(IntakeNode), seed), None)])
    case Receive(incident, collector, reply) =>
      var p := s.live[incident];
      var h := FocusOf(p.config.state);
      s.(live := s.live[incident := p.(source := Some(FromCollector(DispatchReply(h.id, collector, h.text, reply))))])
    case Hit(incident, key) =>
      s.(live := s.live[incident := s.live[incident].(source := Some(FromCache(s.cache[key].finding)))])
    case Remember(incident, key, at) =>
      s.(cache := Cache.Upsert(s.cache, key, s.live[incident].source.value.answer.finding, at))
    case Advance(incident, x) => s.(live := s.live[incident := Advanced(w, s.live[incident], x)])
    case Save(incident) => s.(saved := s.saved[incident := s.live[incident].config.state])
    case KillRun(incident) => s.(live := s.live - {incident})
    case Sweep(key) => s.(cache := s.cache - {key})
  }

  function After(w: World, actions: seq<Action>): System {
    if actions == [] then EMPTY
    else
      var before := After(w, actions[..|actions| - 1]);
      var a := actions[|actions| - 1];
      if CanAct(before, a) then Next(w, before, a) else before
  }

  /******* What is behind every reference *******/

  /** The id names a stored blob. */
  predicate Names(objects: map<string, Payload>, id: string) { id != "" && id in objects }

  /** The finding cites a stored blob, or nothing. */
  predicate Founded(objects: map<string, Payload>, f: Finding) { f.evidenceId == "" || f.evidenceId in objects }

  predicate AllFounded(objects: map<string, Payload>, s: IncidentState) {
    forall i :: 0 <= i < |s.findings| ==> Founded(objects, s.findings[i])
  }

  /** A failure cites nothing; every other answer cites a stored blob. */
  predicate SourceFounded(objects: map<string, Payload>, src: Source) {
    match src
    case FromCache(f) => Names(objects, f.evidenceId)
    case FromCollector(Answered(f)) => Names(objects, f.evidenceId)
    case FromCollector(Unanswered(f)) => f.evidenceId == ""
  }

  predicate ProcessFounded(objects: map<string, Payload>, p: Process) {
    && AllFounded(objects, p.config.state)
    && (p.source.Some? ==> SourceFounded(objects, p.source.value))
  }

  ghost predicate Inv(s: System) {
    && (forall job :: job in s.jobs && s.jobs[job].HasRef? ==> Names(s.objects, s.jobs[job].id))
    && (forall body :: body in s.sent ==> Names(s.objects, body.finding.evidenceId))
    && (forall key :: key in s.cache ==> Names(s.objects, s.cache[key].finding.evidenceId))
    && (forall incident :: incident in s.saved ==> AllFounded(s.objects, s.saved[incident]))
    && (forall incident :: incident in s.live ==> ProcessFounded(s.objects, s.live[incident]))
  }

  lemma UploadKeepsInv(w: World, s: System, job: nat, request: M.Request, id: string, up: M.Upload)
    requires Inv(s) && CanAct(s, Upload(job, request, id, up))
    ensures Inv(Next(w, s, Upload(job, request, id, up)))
  {
    var t := Next(w, s, Upload(job, request, id, up));
    assert forall x :: x in s.objects ==> x in t.objects;
    forall incident | incident in t.live ensures ProcessFounded(t.objects, t.live[incident]) {
      assert ProcessFounded(s.objects, s.live[incident]);
    }
    forall incident | incident in t.saved ensures AllFounded(t.objects, t.saved[incident]) {
      assert AllFounded(s.objects, s.saved[incident]);
    }
  }

  lemma CollectedIsFounded(objects: map<string, Payload>, s: IncidentState, src: Source)
    requires AllFounded(objects, s) && (HasFocus(s) ==> Founded(objects, FindingOf(src)))
    ensures AllFounded(objects, Collected(s, src))
  {
  }

  lemma AdvanceIsFounded(w: World, objects: map<string, Payload>, p: Process, x: Answers)
    requires ProcessFounded(objects, p) && !Asking(p)
    ensures ProcessFounded(objects, Advanced(w, p, x))
  {
    var y := if p.source.Some? then x.(source := p.source.value) else x;
    if p.config.at == At(Node.CollectorsNode) {
      CollectedIsFounded(objects, p.config.state, y.source);
    } else if p.config.at != End {
      NodesOwnTheirFields(w, p.config, y);
    }
  }

  lemma ReceiveIsFounded(objects: map<string, Payload>, sent: set<WireOutput>, h: Hypothesis, collector: string,
                         reply: Reply)
    requires Arrives(sent, reply) && forall body :: body in sent ==> Names(objects, body.finding.evidenceId)
    ensures SourceFounded(objects, FromCollector(DispatchReply(h.id, collector, h.text, reply)))
  {
  }

  lemma LiveKeepsInv(s: System, t: System, incident: string)
    requires Inv(s) && t == s.(live := t.live) && t.live.Keys == s.live.Keys + {incident}
    requires forall other :: other in s.live && other != incident ==> t.live[other] == s.live[other]
    requires ProcessFounded(s.objects, t.live[incident])
    ensures Inv(t)
  {
  }

  lemma AnswerKeepsInv(w: World, s: System, a: Action)
    requires Inv(s) && CanAct(s, a) && (a.Receive? || a.Hit?)
    ensures Inv(Next(w, s, a))
  {
    if a.Receive? {
      ReceiveIsFounded(s.objects, s.sent, FocusOf(s.live[a.incident].config.state), a.collector, a.reply);
    }
    LiveKeepsInv(s, Next(w, s, a), a.incident);
  }

  lemma ProgressKeepsInv(w: World, s: System, a: Action)
    requires Inv(s) && CanAct(s, a) && (a.Advance? || a.StartRun?)
    ensures Inv(Next(w, s, a))
  {
    if a.Advance? { AdvanceIsFounded(w, s.objects, s.live[a.incident], a.answers); }
    LiveKeepsInv(s, Next(w, s, a), a.incident);
  }

  lemma RecordKeepsInv(w: World, s: System, a: Action)
    requires Inv(s) && CanAct(s, a) && (a.Remember? || a.Save?)
    ensures Inv(Next(w, s, a))
  {
    assert ProcessFounded(s.objects, s.live[a.incident]);
  }

  lemma OtherActionKeepsInv(w: World, s: System, a: Action)
    requires Inv(s) && CanAct(s, a) && (a.StartJob? || a.Send? || a.KillJob? || a.KillRun? || a.Sweep?)
    ensures Inv(Next(w, s, a))
  {
  }

  lemma NextKeepsInv(w: World, s: System, a: Action)
    requires Inv(s) && CanAct(s, a)
    ensures Inv(Next(w, s, a))
  {
    match a
    case Upload(job, request, id, up) => UploadKeepsInv(w, s, job, request, id, up);
    case Receive(_, _, _) => AnswerKeepsInv(w, s, a);
    case Hit(_, _) => AnswerKeepsInv(w, s, a);
    case Advance(_, _) => ProgressKeepsInv(w, s, a);
    case StartRun(_, _) => ProgressKeepsInv(w, s, a);
    case Remember(_, _, _) => RecordKeepsInv(w, s, a);
    case Save(_) => RecordKeepsInv(w, s, a);
    case _ => OtherActionKeepsInv(w, s, a);
  }

  lemma {:induction false} AfterKeepsInv(w: World, actions: seq<Action>)
    ensures Inv(After(w, actions))
  {
    if actions == [] {
    } else {
      var before := After(w, actions[..|actions| - 1]);
      AfterKeepsInv(w, actions[..|actions| - 1]);
      if CanAct(before, actions[|actions| - 1]) { NextKeepsInv(w, before, actions[|actions| - 1]); }
    }
  }

  /**
   Nothing dangles: after any interleaving with any failures and deaths, a finding in a running
   or a saved incident cites a stored blob or nothing, and a cached one always cites a blob.
   */
  lemma NothingDangles(w: World, actions: seq<Action>)
    ensures var s := After(w, actions);
      && (forall incident, i :: incident in s.live && 0 <= i < |s.live[incident].config.state.findings| ==>
            Founded(s.objects, s.live[incident].config.state.findings[i]))
      && (forall incident, i :: incident in s.saved && 0 <= i < |s.saved[incident].findings| ==>
            Founded(s.objects, s.saved[incident].findings[i]))
      && (forall key :: key in s.cache ==> Names(s.objects, s.cache[key].finding.evidenceId))
  {
    AfterKeepsInv(w, actions);
    var s := After(w, actions);
    forall incident | incident in s.live ensures AllFounded(s.objects, s.live[incident].config.state) {
      assert ProcessFounded(s.objects, s.live[incident]);
    }
  }

  /** What an advancing process at the collectors node has to record. */
  predicate Holding(p: Process) {
    p.config.at == At(Node.CollectorsNode) && HasFocus(p.config.state) && p.source.Some?
  }

  /** The finding in hand is new to the state. */
  ghost predicate IsNew(p: Process)
    requires Holding(p)
  {
    forall j :: 0 <= j < |p.config.state.findings| ==> p.config.state.findings[j].id != FindingOf(p.source.value).id
  }

  lemma AdvanceRecords(w: World, p: Process, x: Answers)
    requires Holding(p) && IsNew(p)
    ensures Advanced(w, p, x).config.state.findings == p.config.state.findings + [FindingOf(p.source.value)]
  {
    CollectedRecords(p.config.state, p.source.value);
  }

  lemma AfterMore(w: World, actions: seq<Action>, a: Action)
    requires CanAct(After(w, actions), a)
    ensures After(w, actions + [a]) == Next(w, After(w, actions), a)
  {
    assert (actions + [a])[..|actions|] == actions;
  }

  /**
   ... and evidence is not lost on the way: a new finding from a collector's answer or from the
   cache is recorded as it came, and names its stored blob; a failure is recorded citing nothing.
   */
  lemma EvidenceIsRecorded(w: World, actions: seq<Action>, incident: string, x: Answers)
    requires incident in After(w, actions).live
    requires Holding(After(w, actions).live[incident]) && IsNew(After(w, actions).live[incident])
    ensures var before := After(w, actions);
      var src, after := before.live[incident].source.value, After(w, actions + [Advance(incident, x)]);
      && incident in after.live
      && after.live[incident].config.state.findings
           == before.live[incident].config.state.findings + [FindingOf(src)]
      && (if src.FromCollector? && src.answer.Unanswered? then FindingOf(src).evidenceId == ""
          else FindingOf(src).evidenceId != "" && FindingOf(src).evidenceId in after.objects)
  {
    var before := After(w, actions);
    AfterKeepsInv(w, actions);
    assert ProcessFounded(before.objects, before.live[incident]);
    AdvanceRecords(w, before.live[incident], x);
    AfterMore(w, actions, Advance(incident, x));
  }

  /** What a collector answered is held as it was sent, and cites what it stored. */
  lemma AnswerIsReceived(w: World, actions: seq<Action>, incident: string, collector: string, status: int,
                         body: WireOutput)
    requires incident in After(w, actions).live && Asking(After(w, actions).live[incident])
    requires body in After(w, actions).sent && 200 <= status < 300 && Acceptable(body)
    ensures var after := After(w, actions + [Receive(incident, collector, Http(status, Some(body)))]);
      && incident in after.live && Holding(after.live[incident])
      && after.live[incident].source == Some(FromCollector(Answered(Received(body.finding))))
      && body.finding.evidenceId in after.objects
  {
    var a := Receive(incident, collector, Http(status, Some(body)));
    AfterMore(w, actions, a);
    AfterKeepsInv(w, actions);
  }

  /** Findings are passed on as they are: into a saved state, into the cache, and out of it. */
  lemma FindingsAreCarried(w: World, s: System, incident: string, key: string, at: int)
    ensures CanAct(s, Save(incident)) ==>
      Next(w, s, Save(incident)).saved[incident] == s.live[incident].config.state
    ensures CanAct(s, Remember(incident, key, at)) ==>
      Next(w, s, Remember(incident, key, at)).cache[key].finding == FindingOf(s.live[incident].source.value)
    ensures CanAct(s, Hit(incident, key)) ==>
      Next(w, s, Hit(incident, key)).live[incident].source == Some(FromCache(s.cache[key].finding))
  {
  }
}
