/**
 Any number of concurrent calls to put a blob, interleaved step by step, each of whose steps may
 fail and each of which may die between two steps. The calls have pairwise distinct new ids.
 */
module EvidenceProtocol {
  import opened EvidenceStore

  /** Where a call stands. A commit that raised is `ambiguous`: the row is there. */
  datatype Stage =
    | Idle
    | Uploaded
    | Inserted                       // returned to its caller
    | RowRaised(ambiguous: bool)
    | RolledBack(ambiguous: bool, deleted: bool)
    | UploadRaised(stored: bool)
    | Died(at: Stage)

  datatype State = State(contents: Contents, stages: seq<Stage>)

  datatype Event =
    | Upload(call: nat, how: Write)
    | Insert(call: nat, how: Write)
    | Rollback(call: nat, works: bool)
    | Die(call: nat)

  function AddBlob(c: Contents, p: PutRequest, how: Write): Contents {
    if how == Refused then c else c.(blobs := c.blobs[p.id := p.payload])
  }

  /** One step; an event that does not fit the stage of its call changes nothing. */
  function Step(puts: seq<PutRequest>, s: State, e: Event): State
    requires |s.stages| == |puts|
  {
    if e.call >= |puts| then s
    else
      var p, stage := puts[e.call], s.stages[e.call];
      match e
      case Upload(_, how) =>
        if stage != Idle then s
        else State(
          AddBlob(s.contents, p, how),
          s.stages[e.call := if how == Done then Uploaded else UploadRaised(how != Refused)])
      case Insert(_, how) =>
        if stage != Uploaded then s
        else State(
          if how == Refused then s.contents else s.contents.(rows := InsertRow(s.contents.rows, p.id, RowOf(p))),
          s.stages[e.call := if how == Done then Inserted else RowRaised(how != Refused)])
      case Rollback(_, works) =>
        if !stage.RowRaised? then s
        else State(
          if works then s.contents.(blobs := s.contents.blobs - {p.id}) else s.contents,
          s.stages[e.call := RolledBack(stage.ambiguous, works)])
      case Die(_) =>
        if stage.Died? then s else s.(stages := s.stages[e.call := Died(stage)])
  }

  function Run(puts: seq<PutRequest>, start: Contents, events: seq<Event>): (s: State)
    ensures |s.stages| == |puts|
  {
    if events == [] then State(start, seq(|puts|, _ => Idle))
    else Step(puts, Run(puts, start, events[..|events| - 1]), events[|events| - 1])
  }

  /** The stage a call reached before it died, if it did. */
  function Reached(s: Stage): Stage {
    if s.Died? then Reached(s.at) else s
  }

  predicate HasBlob(s: Stage) {
    match Reached(s)
    case Uploaded => true
    case Inserted => true
    case RowRaised(_) => true
    case RolledBack(_, deleted) => !deleted
    case UploadRaised(stored) => stored
    case _ => false
  }

  predicate HasRow(s: Stage) {
    match Reached(s)
    case Inserted => true
    case RowRaised(ambiguous) => ambiguous
    case RolledBack(ambiguous, _) => ambiguous
    case _ => false
  }

  /** The call took a committed row for a refused one and deleted its blob. */
  predicate Misjudged(s: Stage) { Reached(s) == RolledBack(true, true) }

  /** Pairwise distinct ids, none of them in the stores yet. */
  ghost predicate NewIds(puts: seq<PutRequest>, start: Contents) {
    && (forall i, j :: 0 <= i < j < |puts| ==> puts[i].id != puts[j].id)
    && (forall i :: 0 <= i < |puts| ==> puts[i].id !in start.blobs && puts[i].id !in start.rows)
  }

  /** What the stores hold for one call. */
  ghost predicate Holds(c: Contents, p: PutRequest, stage: Stage) {
    && (p.id in c.blobs <==> HasBlob(stage)) && (p.id in c.blobs ==> c.blobs[p.id] == p.payload)
    && (p.id in c.rows <==> HasRow(stage)) && (p.id in c.rows ==> c.rows[p.id] == RowOf(p))
  }

  /** What the stores hold under other ids is what they held at the start. */
  ghost predicate Untouched(puts: seq<PutRequest>, start: Contents, c: Contents, id: string) {
    (forall i :: 0 <= i < |puts| ==> puts[i].id != id) ==>
      && (id in c.blobs <==> id in start.blobs) && (id in c.blobs ==> c.blobs[id] == start.blobs[id])
      && (id in c.rows <==> id in start.rows) && (id in c.rows ==> c.rows[id] == start.rows[id])
  }

  ghost predicate Inv(puts: seq<PutRequest>, start: Contents, s: State) {
    && |s.stages| == |puts|
    && (forall i :: 0 <= i < |puts| ==> Holds(s.contents, puts[i], s.stages[i]))
    && (forall id :: Untouched(puts, start, s.contents, id))
  }

  lemma StepKeepsInv(puts: seq<PutRequest>, start: Contents, s: State, e: Event)
    requires NewIds(puts, start) && Inv(puts, start, s)
    ensures Inv(puts, start, Step(puts, s, e))
  {
    var t := Step(puts, s, e);
    if t != s {
      forall i | 0 <= i < |puts| ensures Holds(t.contents, puts[i], t.stages[i]) {
        assert Holds(s.contents, puts[i], s.stages[i]);
        assert i != e.call ==> puts[i].id != puts[e.call].id;
      }
      forall id ensures Untouched(puts, start, t.contents, id) {
        assert Untouched(puts, start, s.contents, id);
      }
    }
  }

  lemma {:induction false} RunKeepsInv(puts: seq<PutRequest>, start: Contents, events: seq<Event>)
    requires NewIds(puts, start)
    ensures Inv(puts, start, Run(puts, start, events))
  {
    if events == [] {
    } else {
      RunKeepsInv(puts, start, events[..|events| - 1]);
      StepKeepsInv(puts, start, Run(puts, start, events[..|events| - 1]), events[|events| - 1]);
    }
  }

  /**
   In every state of every interleaving, whatever failed or died: rows and blobs are matched
   exactly when no call has deleted the blob of a row whose commit raised.
   */
  lemma MatchedExactly(puts: seq<PutRequest>, start: Contents, events: seq<Event>)
    requires NewIds(puts, start) && Matched(start)
    ensures var s := Run(puts, start, events);
      Matched(s.contents) <==> forall i :: 0 <= i < |puts| ==> !Misjudged(s.stages[i])
  {
    var s := Run(puts, start, events);
    RunKeepsInv(puts, start, events);
    if i :| 0 <= i < |puts| && Misjudged(s.stages[i]) {
      assert Holds(s.contents, puts[i], s.stages[i]);
      assert puts[i].id in s.contents.rows && puts[i].id !in s.contents.blobs;
    }
    if forall i :: 0 <= i < |puts| ==> !Misjudged(s.stages[i]) {
      forall id | id in s.contents.rows
        ensures id in s.contents.blobs && |s.contents.blobs[id]| == s.contents.rows[id].sizeBytes
      {
        if i :| 0 <= i < |puts| && puts[i].id == id {
          assert Holds(s.contents, puts[i], s.stages[i]);
        } else {
          assert Untouched(puts, start, s.contents, id);
        }
      }
    }
  }

  /** Commits that never raise after taking effect. */
  ghost predicate HonestCommits(events: seq<Event>) {
    forall k :: 0 <= k < |events| ==> !(events[k].Insert? && events[k].how == DoneButRaised)
  }

  predicate Ambiguous(s: Stage) {
    match Reached(s)
    case RowRaised(ambiguous) => ambiguous
    case RolledBack(ambiguous, _) => ambiguous
    case _ => false
  }

  lemma {:induction false} HonestRunsAreUnambiguous(puts: seq<PutRequest>, start: Contents, events: seq<Event>, i: nat)
    requires HonestCommits(events) && i < |puts|
    ensures !Ambiguous(Run(puts, start, events).stages[i])
  {
    if events == [] {
    } else {
      HonestRunsAreUnambiguous(puts, start, events[..|events| - 1], i);
      assert !(events[|events| - 1].Insert? && events[|events| - 1].how == DoneButRaised);
    }
  }

  /**
   With commits that only raise when they had no effect, no reference ever dangles: every row
   has its blob at all times, a call that returned has left both, and any other has left no row.
   */
  lemma NoDanglingRows(puts: seq<PutRequest>, start: Contents, events: seq<Event>)
    requires NewIds(puts, start) && Matched(start) && HonestCommits(events)
    ensures var s := Run(puts, start, events);
      && Matched(s.contents)
      && forall i :: 0 <= i < |puts| ==>
           if Reached(s.stages[i]) == Inserted
           then puts[i].id in s.contents.blobs && s.contents.blobs[puts[i].id] == puts[i].payload
             && puts[i].id in s.contents.rows && s.contents.rows[puts[i].id] == RowOf(puts[i])
           else puts[i].id !in s.contents.rows
  {
    var s := Run(puts, start, events);
    RunKeepsInv(puts, start, events);
    MatchedExactly(puts, start, events);
    forall i | 0 <= i < |puts| ensures !Ambiguous(s.stages[i]) && Holds(s.contents, puts[i], s.stages[i]) {
      HonestRunsAreUnambiguous(puts, start, events, i);
    }
  }

  /** The steps of one call that meets the given faults. */
  function EventsOf(f: Faults): seq<Event> {
    if f.schemaFails then []
    else if f.blob != Done then [Upload(0, f.blob)]
    else if f.row == Done then [Upload(0, Done), Insert(0, Done)]
    else [Upload(0, Done), Insert(0, f.row), Rollback(0, f.deletes)]
  }

  lemma RunMore(puts: seq<PutRequest>, start: Contents, events: seq<Event>, e: Event)
    ensures Run(puts, start, events + [e]) == Step(puts, Run(puts, start, events), e)
  {
  }

  lemma AloneUploads(p: PutRequest, start: Contents, how: Write)
    ensures Run([p], start, [Upload(0, how)])
      == State(AddBlob(start, p, how), [if how == Done then Uploaded else UploadRaised(how != Refused)])
  {
  }

  lemma AloneInserts(p: PutRequest, start: Contents, how: Write)
    ensures var up := AddBlob(start, p, Done);
      Run([p], start, [Upload(0, Done), Insert(0, how)])
      == State(if how == Refused then up else up.(rows := InsertRow(up.rows, p.id, RowOf(p))),
               [if how == Done then Inserted else RowRaised(how != Refused)])
  {
    AloneUploads(p, start, Done);
    RunMore([p], start, [Upload(0, Done)], Insert(0, how));
    assert [Upload(0, Done)] + [Insert(0, how)] == [Upload(0, Done), Insert(0, how)];
  }

  /** Where a call ends that meets the given faults. */
  function StageOf(f: Faults): Stage {
    if f.schemaFails then Idle
    else if f.blob != Done then UploadRaised(f.blob != Refused)
    else if f.row == Done then Inserted
    else RolledBack(f.row != Refused, f.deletes)
  }

  /** The error a call's stage means for its caller; none once the row is inserted. */
  lemma StageTellsError(f: Faults)
    ensures StageOf(f) == Inserted <==> Succeeds(f)
    ensures StageOf(f).Idle? <==> PutError(f) == SchemaError
    ensures StageOf(f).UploadRaised? <==> PutError(f) == StorageError || PutError(f) == ClientError
    ensures StageOf(f).RolledBack? <==> PutError(f) == MetadataError && !Succeeds(f)
    ensures HasRow(StageOf(f)) <==> Inserts(f)
    ensures HasBlob(StageOf(f)) <==> Uploads(f) && !RollsBack(f)
  {
  }

  /** A call that is left alone does what the client's method does, and stands where that leaves it. */
  lemma AloneAsTheClient(p: PutRequest, start: Contents, f: Faults)
    ensures Run([p], start, EventsOf(f)) == State(AfterPut(start, p, f), [StageOf(f)])
  {
    if f.schemaFails {
    } else if f.blob != Done {
      AloneUploads(p, start, f.blob);
    } else {
      AloneInserts(p, start, f.row);
      var two, last := [Upload(0, Done), Insert(0, f.row)], Rollback(0, f.deletes);
      RunMore([p], start, two, last);
      assert two + [last] == [Upload(0, Done), Insert(0, f.row), last];
      assert start.blobs[p.id := p.payload] - {p.id} == start.blobs - {p.id};
    }
  }

  /** Without that, a reference can dangle: one call, one commit that raised, one rollback. */
  lemma DanglingRow(p: PutRequest)
    ensures var events := [Upload(0, Done), Insert(0, DoneButRaised), Rollback(0, true)];
      !Matched(Run([p], Contents(map[], map[]), events).contents)
  {
    var f := Faults(false, Done, false, DoneButRaised, true);
    AloneAsTheClient(p, Contents(map[], map[]), f);
    NewPutKeepsMatch(Contents(map[], map[]), p, f);
  }
}
