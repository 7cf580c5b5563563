/** The collectors node: answer the focus hypothesis's question from the cache or from a collector. */
module Collectors {
  import opened Cache
  import opened CacheKey
  import opened Dispatch
  import opened Schemas
  import opened Text

  /** Ten minutes, in microseconds. */
  const LOOK_BACK: int := 600_000_000

  /** What the node takes from its surroundings: the prefix table, the environment, ISO 8601. */
  datatype Setting = Setting(select: string -> string, fingerprint: Fingerprint, iso: int -> string)

  function Set<T(==)>(s: seq<T>): set<T> { set x | x in s }

  function ScopeServices(s: IncidentState): seq<string> {
    SortedSet({s.service} + Set(s.servicesTouched))
  }

  function MergeServices(existing: seq<string>, more: seq<string>): seq<string> {
    SortedSet(Set(existing) + Set(more))
  }

  function FocusIndex(s: IncidentState): nat {
    FirstIndex(s.hypotheses, (h: Hypothesis) => Some(h.id) == s.focus)
  }

  predicate HasFocus(s: IncidentState) { FocusIndex(s) < |s.hypotheses| }

  function FocusOf(s: IncidentState): Hypothesis
    requires HasFocus(s)
  {
    s.hypotheses[FocusIndex(s)]
  }

  /** The question the node asks at time `now`. */
  function Question(s: IncidentState, setting: Setting, now: int): Components
    requires HasFocus(s)
  {
    var text := FocusOf(s).text;
    Components(s.incidentId, setting.select(text), text, setting.iso(s.firedAt - LOOK_BACK), setting.iso(now),
               ScopeServices(s), setting.fingerprint)
  }

  function DirectAnswer(s: IncidentState, setting: Setting, reply: Reply): Answer
    requires HasFocus(s)
  {
    var h := FocusOf(s);
    DispatchReply(h.id, setting.select(h.text), h.text, reply)
  }

  /** Where the finding came from. */
  datatype Source = FromCache(finding: Finding) | FromCollector(answer: Answer)

  function FindingOf(src: Source): Finding {
    if src.FromCache? then src.finding else src.answer.finding
  }

  function DispatchEvent(src: Source): Event {
    Event(if src.FromCache? then DispatchCacheHit else if src.answer.Answered? then DispatchSuccess else DispatchFailed,
          Some(FindingOf(src).id))
  }

  predicate HasFinding(fs: seq<Finding>, id: string) {
    exists i :: 0 <= i < |fs| && fs[i].id == id
  }

  function AddFinding(fs: seq<Finding>, f: Finding): seq<Finding> {
    if HasFinding(fs, f.id) then fs else fs + [f]
  }

  /** The state after the node, given where its finding came from. */
  function Collected(s: IncidentState, src: Source): IncidentState {
    if !HasFocus(s) then s.(timeline := s.timeline + [Event(DispatchNoFocus, None)])
    else
      s.(findings := AddFinding(s.findings, FindingOf(src)),
         servicesTouched := MergeServices(s.servicesTouched, ScopeServices(s)),
         timeline := s.timeline + [DispatchEvent(src)])
  }

  /**
   What a node with a focus leaves: the finding as it came, unless one with its id is there; the
   incident's service and no other one more; and one event that says where the finding came from.
   */
  ghost predicate Records(s: IncidentState, next: IncidentState, src: Source) {
    var f := FindingOf(src);
    && next == s.(findings := next.findings, servicesTouched := next.servicesTouched, timeline := next.timeline)
    && next.findings == (if exists j :: 0 <= j < |s.findings| && s.findings[j].id == f.id then s.findings
                         else s.findings + [f])
    && (forall x :: x in next.servicesTouched <==> x in s.servicesTouched || x == s.service)
    && Ordered(next.servicesTouched) && Distinct(next.servicesTouched)
    && next.timeline == s.timeline + [Event(
         match src
         case FromCache(_) => DispatchCacheHit
         case FromCollector(Answered(_)) => DispatchSuccess
         case FromCollector(Unanswered(_)) => DispatchFailed, Some(f.id))]
  }

  lemma CollectedRecords(s: IncidentState, src: Source)
    requires HasFocus(s)
    ensures Records(s, Collected(s, src), src)
  {
    SortedSetStrict(Set(s.servicesTouched) + Set(ScopeServices(s)));
  }

  /**
   The question: the focus hypothesis's text, from ten minutes before the alert until now, about
   all services so far.
   */
  lemma QuestionIs(s: IncidentState, setting: Setting, now: int)
    requires HasFocus(s)
    ensures var q, h := Question(s, setting, now), FocusOf(s);
      && (exists k :: 0 <= k < |s.hypotheses| && s.hypotheses[k] == h && Some(h.id) == s.focus
            && forall j :: 0 <= j < k ==> Some(s.hypotheses[j].id) != s.focus)
      && q.incidentId == s.incidentId && q.question == h.text && q.collector == setting.select(h.text)
      && q.start == setting.iso(s.firedAt - 10 * 60 * 1_000_000) && q.end == setting.iso(now)
      && q.fingerprint == setting.fingerprint
      && Ordered(q.scope) && Distinct(q.scope)
      && forall x :: x in q.scope <==> x in s.servicesTouched || x == s.service
  {
    SortedSetStrict({s.service} + Set(s.servicesTouched));
  }

  /** Which cache operations raise. */
  datatype CacheFaults = CacheFaults(get: bool, put: bool)

  /**
   The node. With a live row for its question it uses that row's answer; in every other case,
   no cache, a lookup that raises, a miss, it is the node without a cache. Only an answer a
   collector gave is ever written, and a write that raises changes nothing.
   */
  method CollectorsNode(s: IncidentState, setting: Setting, cache: CollectorCache?, now: int, faults: CacheFaults,
                        reply: Reply)
    returns (next: IncidentState, src: Source)
    requires cache != null ==> cache.Valid()
    modifies if cache == null then {} else {cache}
    ensures cache != null ==> cache.Valid() && cache.refs == old(cache.refs)
    ensures next == Collected(s, src)
    ensures HasFocus(s) ==> Records(s, next, src)
    ensures !HasFocus(s) ==> next == s.(timeline := s.timeline + [Event(DispatchNoFocus, None)])
    ensures !HasFocus(s) ==> cache != null ==> cache.rows == old(cache.rows)
    ensures HasFocus(s) ==>
      if cache == null || faults.get || !old(cache.Live(MakeKey(cache.digest, Question(s, setting, now)), now))
      then src == FromCollector(DirectAnswer(s, setting, reply))
      else src == FromCache(old(cache.rows)[MakeKey(cache.digest, Question(s, setting, now))].finding)
    ensures cache != null && HasFocus(s) ==>
      var key := MakeKey(cache.digest, Question(s, setting, now));
      if src.FromCollector? && src.answer.Answered? && !faults.put
        && Accepts(cache.refs, old(cache.rows), key, src.answer.finding)
      then cache.rows == Upsert(old(cache.rows), key, src.answer.finding, now)
        && cache.writes == old(cache.writes) + [Write(key, Question(s, setting, now), src.answer.finding, now)]
      else cache.rows == old(cache.rows) && cache.writes == old(cache.writes)
  {
    if !HasFocus(s) {
      src := FromCollector(Unanswered(FailureFinding("", "", "")));
      next := Collected(s, src);
      return;
    }
    var asked := Question(s, setting, now);
    var cached: Option<Finding> := None;
    if cache != null {
      var got := cache.Get(MakeKey(cache.digest, asked), now, faults.get);
      if got.Ok? { cached := got.value; }
    }
    if cached.Some? {
      src := FromCache(cached.value);
    } else {
      var answer := DirectAnswer(s, setting, reply);
      src := FromCollector(answer);
      if answer.Answered? && cache != null {
        var _ := cache.Put(MakeKey(cache.digest, asked), asked, answer.finding, now, faults.put);
      }
    }
    next := Collected(s, src);
    CollectedRecords(s, src);
  }

  /**
   Caching is invisible to a collector that answers a question as it answered it within the
   last five minutes: whatever the cache holds and however its operations fail, the finding is
   the one the node would have without a cache.
   */
  lemma CacheIsTransparent(cache: CollectorCache, s: IncidentState, setting: Setting, now: int, reply: Reply)
    requires cache.Valid() && HasFocus(s)
    requires forall x, y :: cache.digest(x) == cache.digest(y) ==> x == y
    requires forall w :: w in cache.writes && SameQuestion(w.asked, Question(s, setting, now)) && now < w.at + TTL ==>
      w.finding == DirectAnswer(s, setting, reply).finding
    ensures cache.Live(MakeKey(cache.digest, Question(s, setting, now)), now) ==>
      cache.rows[MakeKey(cache.digest, Question(s, setting, now))].finding == DirectAnswer(s, setting, reply).finding
  {
    if cache.Live(MakeKey(cache.digest, Question(s, setting, now)), now) {
      var w := HitProvenance(cache, Question(s, setting, now), now);
    }
  }

  /**
   The question carries the moment it is asked. A node that asks at an instant at which no
   cached question ended therefore never finds a row: with a clock that moves on between
   visits, the cache has no hits at all.
   */
  lemma NoHitOnceTheClockMoved(cache: CollectorCache, s: IncidentState, setting: Setting, now: int)
    requires cache.Valid() && HasFocus(s)
    requires forall x, y :: cache.digest(x) == cache.digest(y) ==> x == y
    requires forall w :: w in cache.writes ==> w.asked.end != setting.iso(now)
    ensures !cache.Live(MakeKey(cache.digest, Question(s, setting, now)), now)
  {
    if cache.Live(MakeKey(cache.digest, Question(s, setting, now)), now) {
      var w := HitProvenance(cache, Question(s, setting, now), now);
    }
  }

  function FindingIds(fs: seq<Finding>): seq<string> {
    seq(|fs|, i requires 0 <= i < |fs| => fs[i].id)
  }

  lemma AddKeepsDistinct(fs: seq<Finding>, f: Finding)
    requires Distinct(FindingIds(fs))
    ensures Distinct(FindingIds(AddFinding(fs, f)))
  {
    if HasFinding(fs, f.id) {
    } else {
      assert FindingIds(fs + [f]) == FindingIds(fs) + [f.id];
      forall i | 0 <= i < |fs| ensures FindingIds(fs)[i] != f.id {
        assert fs[i].id != f.id;
      }
    }
  }

  /** Finding ids stay distinct, the services touched stay strictly sorted and only grow. */
  lemma CollectedKeeps(s: IncidentState, src: Source)
    requires Distinct(FindingIds(s.findings))
    requires Ordered(s.servicesTouched) && Distinct(s.servicesTouched)
    ensures var t := Collected(s, src);
      && Distinct(FindingIds(t.findings))
      && s.findings <= t.findings
      && Ordered(t.servicesTouched) && Distinct(t.servicesTouched)
      && Set(s.servicesTouched) <= Set(t.servicesTouched)
      && (HasFocus(s) ==> HasFinding(t.findings, FindingOf(src).id) && s.service in t.servicesTouched)
  {
    if HasFocus(s) {
      var f := FindingOf(src);
      SortedSetStrict(Set(s.servicesTouched) + Set(ScopeServices(s)));
      assert s.service in ScopeServices(s);
      var t := AddFinding(s.findings, f);
      AddKeepsDistinct(s.findings, f);
      if !HasFinding(s.findings, f.id) {
        assert t[|s.findings|] == f;
      }
    }
  }
}
