/** One tick of the investigator: merge the proposed hypotheses, choose the focus, count the attempt. */
module Investigator {
  import opened Schemas
  import opened Text

  const MAX_ATTEMPTS: nat := 5

  /******* First position, last value *******/

  function Ids(hs: seq<Hypothesis>): seq<string> {
    seq(|hs|, i requires 0 <= i < |hs| => hs[i].id)
  }

  /** `ks`, then every id of `ids` that is new, in order of first occurrence. */
  function AddIds(ks: seq<string>, ids: seq<string>): seq<string> {
    if ids == [] then ks
    else
      var before := AddIds(ks, ids[..|ids| - 1]);
      if ids[|ids| - 1] in before then before else before + [ids[|ids| - 1]]
  }

  function FirstKeys(hs: seq<Hypothesis>): seq<string> {
    AddIds([], Ids(hs))
  }

  /** The last entry with the given id. */
  function Lookup(hs: seq<Hypothesis>, id: string): Option<Hypothesis> {
    if hs == [] then None
    else if hs[|hs| - 1].id == id then Some(hs[|hs| - 1])
    else Lookup(hs[..|hs| - 1], id)
  }

  /** The entry of a deduplicated list for one of its keys. */
  function Entry(hs: seq<Hypothesis>, key: string): (h: Hypothesis)
    requires key in FirstKeys(hs)
    ensures h.id == key && Lookup(hs, key) == Some(h)
  {
    AddIdsMembers([], Ids(hs), key);
    LookupFinds(hs, key);
    Lookup(hs, key).value
  }

  /** Each id once, at its first position, with its last value. */
  function Dedup(hs: seq<Hypothesis>): (r: seq<Hypothesis>)
    ensures Ids(r) == FirstKeys(hs)
  {
    var keys := FirstKeys(hs);
    var r := seq(|keys|, i requires 0 <= i < |keys| => Entry(hs, keys[i]));
    assert forall i :: 0 <= i < |keys| ==> Ids(r)[i] == keys[i];
    r
  }

  function Merge(existing: seq<Hypothesis>, proposed: seq<Hypothesis>): seq<Hypothesis> {
    Dedup(existing + proposed)
  }

  lemma {:induction false} AddIdsMembers(ks: seq<string>, ids: seq<string>, id: string)
    ensures id in AddIds(ks, ids) <==> id in ks || id in ids
  {
    if ids == [] {
    } else {
      AddIdsMembers(ks, ids[..|ids| - 1], id);
      assert ids == ids[..|ids| - 1] + [ids[|ids| - 1]];
    }
  }

  lemma {:induction false} AddIdsDistinct(ks: seq<string>, ids: seq<string>)
    requires Distinct(ks)
    ensures Distinct(AddIds(ks, ids)) && ks <= AddIds(ks, ids)
  {
    if ids == [] {
    } else {
      AddIdsDistinct(ks, ids[..|ids| - 1]);
    }
  }

  lemma {:induction false} AddIdsConcat(ks: seq<string>, a: seq<string>, b: seq<string>)
    ensures AddIds(ks, a + b) == AddIds(AddIds(ks, a), b)
  {
    if b == [] {
      assert a + b == a;
    } else {
      AddIdsConcat(ks, a, b[..|b| - 1]);
      assert (a + b)[..|a + b| - 1] == a + b[..|b| - 1];
    }
  }

  lemma {:induction false} AddKnownIds(ks: seq<string>, ids: seq<string>)
    requires forall id :: id in ids ==> id in ks
    ensures AddIds(ks, ids) == ks
  {
    if ids == [] {
    } else {
      AddKnownIds(ks, ids[..|ids| - 1]);
    }
  }

  /** Only the first occurrences matter. */
  lemma {:induction false} AddFirstIds(ks: seq<string>, ids: seq<string>)
    ensures AddIds(ks, AddIds([], ids)) == AddIds(ks, ids)
  {
    if ids == [] {
    } else {
      var init, last := ids[..|ids| - 1], ids[|ids| - 1];
      var firsts := AddIds([], init);
      AddFirstIds(ks, init);
      AddIdsMembers([], init, last);
      AddIdsMembers(ks, init, last);
      if last !in firsts {
        assert (firsts + [last])[..|firsts|] == firsts;
      }
    }
  }

  lemma {:induction false} AddFreshIds(ids: seq<string>)
    requires Distinct(ids)
    ensures AddIds([], ids) == ids
  {
    if ids == [] {
    } else {
      var init := ids[..|ids| - 1];
      AddFreshIds(init);
      assert ids == init + [ids[|ids| - 1]];
    }
  }

  lemma {:induction false} LookupFinds(hs: seq<Hypothesis>, id: string)
    ensures Lookup(hs, id).Some? <==> id in Ids(hs)
    ensures Lookup(hs, id).Some? ==> Lookup(hs, id).value.id == id && Lookup(hs, id).value in hs
  {
    if hs == [] {
    } else {
      var init := hs[..|hs| - 1];
      LookupFinds(init, id);
      assert Ids(hs) == Ids(init) + [hs[|hs| - 1].id];
    }
  }

  lemma {:induction false} LookupConcat(a: seq<Hypothesis>, b: seq<Hypothesis>, id: string)
    ensures Lookup(a + b, id) == if Lookup(b, id).Some? then Lookup(b, id) else Lookup(a, id)
  {
    if b == [] {
      assert a + b == a;
    } else {
      LookupConcat(a, b[..|b| - 1], id);
      assert (a + b)[..|a + b| - 1] == a + b[..|b| - 1];
    }
  }

  lemma {:induction false} LookupDistinct(hs: seq<Hypothesis>, i: nat)
    requires Distinct(Ids(hs)) && i < |hs|
    ensures Lookup(hs, hs[i].id) == Some(hs[i])
  {
    if i == |hs| - 1 {
    } else {
      var init := hs[..|hs| - 1];
      assert Ids(hs)[i] != Ids(hs)[|hs| - 1];
      forall j, k | 0 <= j < k < |init| ensures Ids(init)[j] != Ids(init)[k] {
        assert Ids(hs)[j] != Ids(hs)[k];
      }
      LookupDistinct(init, i);
    }
  }

  lemma IdsConcat(a: seq<Hypothesis>, b: seq<Hypothesis>)
    ensures Ids(a + b) == Ids(a) + Ids(b)
  {
  }

  /** A deduplicated list has the same keys and the same values. */
  lemma DedupKeeps(hs: seq<Hypothesis>, id: string)
    ensures Distinct(Ids(Dedup(hs)))
    ensures Lookup(Dedup(hs), id) == Lookup(hs, id)
  {
    var ds, keys := Dedup(hs), FirstKeys(hs);
    AddIdsDistinct([], Ids(hs));
    AddIdsMembers([], Ids(hs), id);
    LookupFinds(ds, id);
    LookupFinds(hs, id);
    if id in keys {
      var i :| 0 <= i < |keys| && keys[i] == id;
      assert Ids(ds)[i] == id;
      LookupDistinct(ds, i);
    }
  }

  /** Two lists with the same keys and values deduplicate alike. */
  lemma DedupDetermined(a: seq<Hypothesis>, b: seq<Hypothesis>)
    requires FirstKeys(a) == FirstKeys(b)
    requires forall id :: Lookup(a, id) == Lookup(b, id)
    ensures Dedup(a) == Dedup(b)
  {
  }

  lemma DedupInside(a: seq<Hypothesis>, b: seq<Hypothesis>)
    ensures Dedup(Dedup(a) + b) == Dedup(a + b)
    ensures Dedup(a + Dedup(b)) == Dedup(a + b)
  {
    IdsConcat(a, b);
    IdsConcat(Dedup(a), b);
    IdsConcat(a, Dedup(b));
    AddIdsConcat([], Ids(a), Ids(b));
    AddIdsConcat([], Ids(Dedup(a)), Ids(b));
    AddIdsConcat([], Ids(a), Ids(Dedup(b)));
    AddIdsDistinct([], Ids(a));
    AddFreshIds(FirstKeys(a));
    AddFirstIds(AddIds([], Ids(a)), Ids(b));
    forall id ensures Lookup(Dedup(a) + b, id) == Lookup(a + b, id) == Lookup(a + Dedup(b), id) {
      DedupKeeps(a, id);
      DedupKeeps(b, id);
      LookupConcat(a, b, id);
      LookupConcat(Dedup(a), b, id);
      LookupConcat(a, Dedup(b), id);
    }
    DedupDetermined(Dedup(a) + b, a + b);
    DedupDetermined(a + Dedup(b), a + b);
  }

  /** Merging tick by tick or all at once comes to the same. */
  lemma MergeAssociative(a: seq<Hypothesis>, b: seq<Hypothesis>, c: seq<Hypothesis>)
    ensures Merge(Merge(a, b), c) == Merge(a, Merge(b, c))
  {
    DedupInside(a + b, c);
    DedupInside(a, b + c);
    assert a + b + c == a + (b + c);
  }

  /** Proposing the same list again changes nothing. */
  lemma MergeIdempotent(existing: seq<Hypothesis>, proposed: seq<Hypothesis>)
    ensures Merge(Merge(existing, proposed), proposed) == Merge(existing, proposed)
  {
    var e, p := existing, proposed;
    DedupInside(e + p, p);
    IdsConcat(e, p);
    IdsConcat(e + p, p);
    AddIdsConcat([], Ids(e + p), Ids(p));
    forall id | id in Ids(p) ensures id in FirstKeys(e + p) { AddIdsMembers([], Ids(e + p), id); }
    AddKnownIds(FirstKeys(e + p), Ids(p));
    forall id ensures Lookup(e + p + p, id) == Lookup(e + p, id) {
      LookupConcat(e + p, p, id);
      LookupConcat(e, p, id);
    }
    DedupDetermined(e + p + p, e + p);
  }

  /**
   What a merge keeps: ids stay distinct, no known id is lost or moved, and each entry is the
   last proposal for its id or, when it was not proposed, the known entry unchanged.
   */
  lemma MergeKeeps(existing: seq<Hypothesis>, proposed: seq<Hypothesis>, id: string)
    requires Distinct(Ids(existing))
    ensures Distinct(Ids(Merge(existing, proposed)))
    ensures Ids(existing) <= Ids(Merge(existing, proposed))
    ensures id in Ids(Merge(existing, proposed)) <==> id in Ids(existing) || id in Ids(proposed)
    ensures Lookup(Merge(existing, proposed), id)
         == if id in Ids(proposed) then Lookup(proposed, id) else Lookup(existing, id)
  {
    var all := existing + proposed;
    IdsConcat(existing, proposed);
    AddIdsConcat([], Ids(existing), Ids(proposed));
    AddFreshIds(Ids(existing));
    AddIdsDistinct(Ids(existing), Ids(proposed));
    DedupKeeps(all, id);
    LookupConcat(existing, proposed, id);
    LookupFinds(proposed, id);
    AddIdsMembers([], Ids(all), id);
  }

  /******* The dictionary loops *******/

  ghost predicate Represents(keys: seq<string>, byId: map<string, Hypothesis>, hs: seq<Hypothesis>) {
    && keys == FirstKeys(hs)
    && (forall id :: id in byId <==> id in keys)
    && (forall id :: id in byId ==> Lookup(hs, id) == Some(byId[id]))
  }

  lemma RepresentsMore(keys: seq<string>, byId: map<string, Hypothesis>, hs: seq<Hypothesis>, h: Hypothesis)
    requires Represents(keys, byId, hs)
    ensures Represents(if h.id in byId then keys else keys + [h.id], byId[h.id := h], hs + [h])
  {
    assert (hs + [h])[..|hs|] == hs;
    assert Ids(hs + [h]) == Ids(hs) + [h.id];
    assert (Ids(hs) + [h.id])[..|hs|] == Ids(hs);
  }

  /** Enters each hypothesis under its id, in a dictionary that keeps insertion order. */
  method Enter(keys0: seq<string>, byId0: map<string, Hypothesis>, ghost known: seq<Hypothesis>, more: seq<Hypothesis>)
    returns (keys: seq<string>, byId: map<string, Hypothesis>)
    requires Represents(keys0, byId0, known)
    ensures Represents(keys, byId, known + more)
  {
    keys, byId := keys0, byId0;
    assert known + more[..0] == known;
    for i := 0 to |more|
      invariant Represents(keys, byId, known + more[..i])
    {
      var h := more[i];
      RepresentsMore(keys, byId, known + more[..i], h);
      assert known + more[..i] + [h] == known + more[..i + 1];
      keys, byId := if h.id in byId then keys else keys + [h.id], byId[h.id := h];
    }
    assert more[..|more|] == more;
  }

  method MergeHypotheses(existing: seq<Hypothesis>, proposed: seq<Hypothesis>) returns (merged: seq<Hypothesis>)
    ensures merged == Merge(existing, proposed)
  {
    var keys, byId := Enter([], map[], [], existing);
    assert [] + existing == existing;
    keys, byId := Enter(keys, byId, existing, proposed);
    merged := seq(|keys|, i requires 0 <= i < |keys| && keys[i] in byId => byId[keys[i]]);
    forall i | 0 <= i < |keys| ensures merged[i] == Merge(existing, proposed)[i] {
      assert Lookup(existing + proposed, keys[i]) == Some(byId[keys[i]]);
    }
    assert |Merge(existing, proposed)| == |Ids(Merge(existing, proposed))|;
  }

  /******* The focus *******/

  function EnsureId(h: Hypothesis, contentHash: string -> string): Hypothesis {
    if h.id != "" then h else h.(id := contentHash(h.text))
  }

  function EnsureIds(hs: seq<Hypothesis>, contentHash: string -> string): seq<Hypothesis> {
    seq(|hs|, i requires 0 <= i < |hs| => EnsureId(hs[i], contentHash))
  }

  /** The first position of the highest score, as Python's `max` finds it. */
  function BestIndex(hs: seq<Hypothesis>): (k: nat)
    requires hs != []
    ensures k < |hs|
    ensures forall j :: 0 <= j < |hs| ==> hs[j].score <= hs[k].score
    ensures forall j :: 0 <= j < k ==> hs[j].score < hs[k].score
  {
    if |hs| == 1 then 0
    else
      var k := BestIndex(hs[..|hs| - 1]);
      if hs[|hs| - 1].score > hs[k].score then |hs| - 1 else k
  }

  function Focus(chosen: string, proposed: seq<Hypothesis>): string {
    if chosen in Ids(proposed) then chosen
    else if proposed == [] then ""
    else proposed[BestIndex(proposed)].id
  }

  /**
   The focus always names a merged hypothesis, unless nothing was proposed; then, with no
   known id empty, it names none.
   */
  lemma FocusIsKnown(existing: seq<Hypothesis>, proposed: seq<Hypothesis>, chosen: string)
    requires Distinct(Ids(existing)) && "" !in Ids(existing)
    ensures Focus(chosen, proposed) in Ids(Merge(existing, proposed)) <==> proposed != []
  {
    var focus := Focus(chosen, proposed);
    MergeKeeps(existing, proposed, focus);
    if proposed != [] && chosen !in Ids(proposed) {
      assert Ids(proposed)[BestIndex(proposed)] == focus;
    }
  }

  /******* The node *******/

  datatype Proposal = Proposal(hypotheses: seq<Hypothesis>, focus: string)

  function InvestigatorNode(s: IncidentState, contentHash: string -> string, answer: Proposal): IncidentState {
    if s.attempts >= MAX_ATTEMPTS then
      s.(timeline := s.timeline + [Event(InvestigatorCapReached, None)])
    else
      var proposed := EnsureIds(answer.hypotheses, contentHash);
      s.(hypotheses := Merge(s.hypotheses, proposed),
         focus := Some(Focus(answer.focus, proposed)),
         attempts := s.attempts + 1,
         timeline := s.timeline + [Event(InvestigatorTick, None)])
  }
}
