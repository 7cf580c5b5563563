/** Executing intents at most once each, by a set of hashes already executed. */
module Executor {
  import opened Schemas
  import opened Text

  datatype Outcome = DryRunSuccess | SkippedIdempotent

  datatype ExecutionRecord = ExecutionRecord(
    intentHash: string,
    actionType: ActionType,
    target: string,
    parameters: map<string, Param>,
    isCompensation: bool,
    outcome: Outcome)

  /******* What one call yields *******/

  function ForwardRecord(i: ActionIntent, outcome: Outcome): ExecutionRecord {
    ExecutionRecord(i.hash, i.actionType, i.target, i.parameters, false, outcome)
  }

  function RollbackRecord(i: ActionIntent): ExecutionRecord {
    ExecutionRecord(i.hash, Rollback, i.target, i.parameters, true, DryRunSuccess)
  }

  function ForwardAction(i: ActionIntent, repeat: bool): Action {
    Action(FreshId, i.actionType, if repeat then Skipped(i.expectedEffect) else Effect(i.expectedEffect),
           Succeeded, Some(i.hash))
  }

  function RollbackAction(i: ActionIntent): Action {
    Action(FreshId, Rollback, Compensation(i.rollbackHint), Succeeded, Some(i.hash))
  }

  /******* What a history of calls yields *******/

  /** Where a call raises: before it has done anything, or once its record is made and kept. */
  datatype Raise = Early | Late

  datatype Call =
    | Execute(i: ActionIntent, raise: Option<Raise>)
    | Compensate(i: ActionIntent, raise: Option<Raise>)

  predicate TakesEffect(call: Call) { call.raise != Some(Early) }

  /** The seen-set after a history of calls on an executor seeded with `seed`. */
  function Seen(seed: set<string>, calls: seq<Call>): set<string> {
    if calls == [] then seed
    else
      var before, last := Seen(seed, calls[..|calls| - 1]), calls[|calls| - 1];
      if last.Execute? && TakesEffect(last) then before + {last.i.hash} else before
  }

  function RecordOf(seen: set<string>, call: Call): ExecutionRecord {
    match call
    case Execute(i, _) => ForwardRecord(i, if i.hash in seen then SkippedIdempotent else DryRunSuccess)
    case Compensate(i, _) => RollbackRecord(i)
  }

  /** The record a call makes, if it gets that far. */
  function Made(seen: set<string>, call: Call): seq<ExecutionRecord> {
    if TakesEffect(call) then [RecordOf(seen, call)] else []
  }

  /** The records a history makes, in order. */
  function Records(seed: set<string>, calls: seq<Call>): seq<ExecutionRecord> {
    if calls == [] then []
    else
      var before := calls[..|calls| - 1];
      Records(seed, before) + Made(Seen(seed, before), calls[|calls| - 1])
  }

  /** The record of a real forward execution. */
  predicate Real(r: ExecutionRecord) { !r.isCompensation && r.outcome == DryRunSuccess }

  /** How often a history really executed the intent with hash `h`. */
  function Executions(rs: seq<ExecutionRecord>, h: string): nat {
    if rs == [] then 0
    else
      var r := rs[|rs| - 1];
      Executions(rs[..|rs| - 1], h) + if r.intentHash == h && Real(r) then 1 else 0
  }

  /** How many real executions there were. */
  function Total(rs: seq<ExecutionRecord>): nat {
    if rs == [] then 0 else Total(rs[..|rs| - 1]) + if Real(rs[|rs| - 1]) then 1 else 0
  }

  ghost predicate AskedAt(calls: seq<Call>, h: string, k: nat)
    requires k < |calls|
  {
    calls[k].Execute? && TakesEffect(calls[k]) && calls[k].i.hash == h
  }

  /** Some call to execute the hash took effect. */
  ghost predicate Asked(calls: seq<Call>, h: string) {
    exists k: nat :: k < |calls| && AskedAt(calls, h, k)
  }

  lemma AskedLast(calls: seq<Call>, h: string)
    requires calls != []
    ensures Asked(calls, h) <==> Asked(calls[..|calls| - 1], h) || AskedAt(calls, h, |calls| - 1)
  {
    var before := calls[..|calls| - 1];
    if k: nat :| k < |before| && AskedAt(before, h, k) {
      assert AskedAt(calls, h, k);
    }
    if k: nat :| k < |calls| && AskedAt(calls, h, k) {
      assert k < |before| ==> AskedAt(before, h, k);
    }
  }

  /** The seen-set is the seed and every hash asked for; compensation adds nothing. */
  lemma {:induction false} SeenExactly(seed: set<string>, calls: seq<Call>, h: string)
    ensures h in Seen(seed, calls) <==> h in seed || Asked(calls, h)
  {
    if calls == [] {
    } else {
      SeenExactly(seed, calls[..|calls| - 1], h);
      AskedLast(calls, h);
    }
  }

  lemma ExecutionsMore(rs: seq<ExecutionRecord>, r: ExecutionRecord, h: string)
    ensures Executions(rs + [r], h) == Executions(rs, h) + if r.intentHash == h && Real(r) then 1 else 0
    ensures Total(rs + [r]) == Total(rs) + if Real(r) then 1 else 0
  {
    assert (rs + [r])[..|rs|] == rs;
  }

  /**
   Exactly once: over any history a hash is executed once if it was asked for and not seeded,
   and otherwise never.
   */
  lemma {:induction false} ExactlyOnce(seed: set<string>, calls: seq<Call>, h: string)
    ensures Executions(Records(seed, calls), h) == if h !in seed && Asked(calls, h) then 1 else 0
  {
    if calls == [] {
    } else {
      var before, last := calls[..|calls| - 1], calls[|calls| - 1];
      ExactlyOnce(seed, before, h);
      SeenExactly(seed, before, h);
      AskedLast(calls, h);
      if TakesEffect(last) {
        ExecutionsMore(Records(seed, before), RecordOf(Seen(seed, before), last), h);
      } else {
        assert Records(seed, calls) == Records(seed, before);
      }
    }
  }

  /** The record is of this call: what it was asked about, and whether it compensates. */
  ghost predicate RecordOfCall(r: ExecutionRecord, call: Call) {
    && r.intentHash == call.i.hash && r.target == call.i.target && r.parameters == call.i.parameters
    && r.actionType == (if call.Compensate? then Rollback else call.i.actionType)
    && (r.isCompensation <==> call.Compensate?)
    && (r.isCompensation ==> r.outcome == DryRunSuccess)
  }

  /** The calls of a history that take effect, in order. */
  function Effected(calls: seq<Call>): seq<Call> {
    if calls == [] then []
    else Effected(calls[..|calls| - 1]) + if calls[|calls| - 1].raise != Some(Early) then [calls[|calls| - 1]] else []
  }

  /** One record for every call that takes effect, in order, saying what that call was about. */
  lemma {:induction false} RecordsTell(seed: set<string>, calls: seq<Call>)
    ensures |Records(seed, calls)| == |Effected(calls)|
    ensures forall k :: 0 <= k < |Effected(calls)| ==> RecordOfCall(Records(seed, calls)[k], Effected(calls)[k])
  {
    if calls == [] {
    } else {
      RecordsTell(seed, calls[..|calls| - 1]);
    }
  }

  lemma AddToSet<T>(s: set<T>, x: T)
    ensures |s + {x}| == |s| + if x in s then 0 else 1
  {
    if x in s { assert s + {x} == s; }
  }

  /** Every real execution adds a hash to the seen-set, and nothing else does. */
  lemma {:induction false} TotalIsNew(seed: set<string>, calls: seq<Call>)
    ensures |Seen(seed, calls)| == |seed| + Total(Records(seed, calls))
  {
    if calls == [] {
    } else {
      var before, last := calls[..|calls| - 1], calls[|calls| - 1];
      TotalIsNew(seed, before);
      AddToSet(Seen(seed, before), last.i.hash);
      if TakesEffect(last) {
        ExecutionsMore(Records(seed, before), RecordOf(Seen(seed, before), last), "");
      } else {
        assert Records(seed, calls) == Records(seed, before);
      }
    }
  }

  lemma {:induction false} SeenHandOver(seed: set<string>, first: seq<Call>, second: seq<Call>)
    ensures Seen(Seen(seed, first), second) == Seen(seed, first + second)
  {
    if second == [] {
      assert first + second == first;
    } else {
      var m := |second| - 1;
      SeenHandOver(seed, first, second[..m]);
      assert (first + second)[..|first| + m] == first + second[..m];
    }
  }

  lemma SeenMore(seed: set<string>, calls: seq<Call>, last: Call)
    ensures Seen(seed, calls + [last])
      == Seen(seed, calls) + if last.Execute? && TakesEffect(last) then {last.i.hash} else {}
  {
    assert (calls + [last])[..|calls|] == calls;
  }

  lemma RecordsMore(seed: set<string>, calls: seq<Call>, last: Call)
    ensures Records(seed, calls + [last]) == Records(seed, calls) + Made(Seen(seed, calls), last)
  {
    assert (calls + [last])[..|calls|] == calls;
  }

  lemma HandOverStep(seed: set<string>, first: seq<Call>, init: seq<Call>, last: Call)
    requires Records(seed, first + init) == Records(seed, first) + Records(Seen(seed, first), init)
    ensures Records(seed, first + init + [last]) == Records(seed, first) + Records(Seen(seed, first), init + [last])
  {
    var seen, all := Seen(seed, first), first + init;
    SeenHandOver(seed, first, init);
    RecordsMore(seed, all, last);
    RecordsMore(seen, init, last);
    Regroup(Records(seed, first), Records(seen, init), Made(Seen(seed, all), last));
  }

  /** An executor seeded with another's seen-set continues where that one stopped. */
  lemma {:induction false} HandOver(seed: set<string>, first: seq<Call>, second: seq<Call>)
    ensures Records(seed, first + second) == Records(seed, first) + Records(Seen(seed, first), second)
  {
    if second == [] {
      assert first + second == first;
    } else {
      var init, last := second[..|second| - 1], second[|second| - 1];
      HandOver(seed, first, init);
      HandOverStep(seed, first, init, last);
      assert init + [last] == second && first + init + [last] == first + second;
    }
  }

  /** ... so it never repeats that one's work. */
  lemma NeverRepeatsAcrossExecutors(seed: set<string>, first: seq<Call>, second: seq<Call>, h: string)
    requires Asked(first, h)
    ensures Executions(Records(Seen(seed, first), second), h) == 0
  {
    SeenExactly(seed, first, h);
    ExactlyOnce(Seen(seed, first), second, h);
  }

  /******* The executor *******/

  /** What all executors together have been asked to do and have done: the log of the process. */
  class Journal {
    var calls: seq<Call>
    var records: seq<ExecutionRecord>

    constructor ()
      ensures calls == [] && records == []
    {
      calls := [];
      records := [];
    }

    method Enter(call: Call, made: seq<ExecutionRecord>)
      modifies this
      ensures calls == old(calls) + [call]
      ensures records == old(records) + made
    {
      calls := calls + [call];
      records := records + made;
    }
  }

  class IdempotentExecutor {
    const hasStore: bool
    const journal: Journal
    var executedHashes: set<string>
    /** The records that reached the evidence store. */
    var stored: seq<ExecutionRecord>
    ghost const seed: set<string>
    ghost var calls: seq<Call>

    ghost predicate Valid()
      reads this
    {
      executedHashes == Seen(seed, calls)
    }

    constructor (hasStore: bool, alreadyExecuted: set<string>, journal: Journal)
      ensures Valid() && calls == [] && seed == alreadyExecuted && stored == []
      ensures this.hasStore == hasStore && this.journal == journal && executedHashes == alreadyExecuted
    {
      this.hasStore := hasStore;
      this.journal := journal;
      executedHashes := alreadyExecuted;
      stored := [];
      seed := alreadyExecuted;
      calls := [];
    }

    /** Best effort: a store that fails, or none at all, loses the record silently. */
    method PersistRecord(record: ExecutionRecord, storeFails: bool)
      modifies this`stored
      ensures stored == if hasStore && !storeFails then old(stored) + [record] else old(stored)
    {
      if hasStore && !storeFails { stored := stored + [record]; }
    }

    /** The history goes on by a call. */
    ghost method Note(call: Call)
      requires Valid()
      modifies this`calls
      ensures calls == old(calls) + [call]
      ensures Seen(seed, calls) == executedHashes + if call.Execute? && TakesEffect(call) then {call.i.hash} else {}
    {
      SeenMore(seed, calls, call);
      calls := calls + [call];
    }

    /** None when the call raises. */
    method Execute(intent: ActionIntent, raise: Option<Raise>, storeFails: bool)
      returns (done: Option<(ExecutionRecord, Action)>)
      requires Valid()
      modifies this, journal
      ensures Valid() && calls == old(calls) + [Call.Execute(intent, raise)]
      ensures executedHashes == old(executedHashes) + if raise == Some(Early) then {} else {intent.hash}
      ensures journal.calls == old(journal.calls) + [Call.Execute(intent, raise)]
      ensures journal.records == old(journal.records) + Made(old(executedHashes), Call.Execute(intent, raise))
      ensures done == if raise.Some? then None else
        Some((RecordOf(old(executedHashes), Call.Execute(intent, raise)),
              ForwardAction(intent, intent.hash in old(executedHashes))))
      ensures stored == if hasStore && !storeFails && raise != Some(Early) && intent.hash !in old(executedHashes)
                        then old(stored) + [ForwardRecord(intent, DryRunSuccess)] else old(stored)
    {
      Note(Call.Execute(intent, raise));
      if raise == Some(Early) {
        journal.Enter(Call.Execute(intent, raise), []);
        return None;
      }
      if intent.hash in executedHashes {
        var record := ForwardRecord(intent, SkippedIdempotent);
        journal.Enter(Call.Execute(intent, raise), [record]);
        if raise.Some? { return None; }
        return Some((record,
          Action(FreshId, intent.actionType, Skipped(intent.expectedEffect), Succeeded, Some(intent.hash))));
      }
      var record := ForwardRecord(intent, DryRunSuccess);
      journal.Enter(Call.Execute(intent, raise), [record]);
      executedHashes := executedHashes + {intent.hash};
      PersistRecord(record, storeFails);
      if raise.Some? { return None; }
      done := Some((record,
        Action(FreshId, intent.actionType, Effect(intent.expectedEffect), Succeeded, Some(intent.hash))));
    }

    /** None when the call raises. */
    method Compensate(intent: ActionIntent, raise: Option<Raise>, storeFails: bool)
      returns (done: Option<(ExecutionRecord, Action)>)
      requires Valid()
      modifies this, journal
      ensures Valid() && calls == old(calls) + [Call.Compensate(intent, raise)]
      ensures executedHashes == old(executedHashes)
      ensures journal.calls == old(journal.calls) + [Call.Compensate(intent, raise)]
      ensures journal.records == old(journal.records) + Made(executedHashes, Call.Compensate(intent, raise))
      ensures done == if raise.Some? then None else Some((RollbackRecord(intent), RollbackAction(intent)))
      ensures stored == if hasStore && !storeFails && raise != Some(Early)
                        then old(stored) + [RollbackRecord(intent)] else old(stored)
    {
      Note(Call.Compensate(intent, raise));
      if raise == Some(Early) {
        journal.Enter(Call.Compensate(intent, raise), []);
        return None;
      }
      var record := RollbackRecord(intent);
      journal.Enter(Call.Compensate(intent, raise), [record]);
      PersistRecord(record, storeFails);
      if raise.Some? { return None; }
      done := Some((record, RollbackAction(intent)));
    }
  }
}
