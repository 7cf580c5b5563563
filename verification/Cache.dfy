/** The five-minute cache of collector answers, a table with a foreign key into the evidence metadata. */
module Cache {
  import opened CacheKey
  import opened Schemas
  import opened Text

  /** Five minutes, in microseconds. */
  const TTL: int := 300_000_000

  /** A row: `evidence` is the column with the foreign key, set on insert and never updated. */
  datatype Row = Row(finding: Finding, evidence: string, expiresAt: int)

  /** A committed write: under which key, what was asked, what was answered, and when. */
  datatype Write = Write(key: string, asked: Components, finding: Finding, at: int)

  /** Whether the table accepts a write: an insert needs its evidence id among the metadata rows. */
  predicate Accepts(refs: set<string>, rows: map<string, Row>, key: string, finding: Finding) {
    key in rows || finding.evidenceId in refs
  }

  /** Insert, or on conflict replace the answer and the expiry. */
  function Upsert(rows: map<string, Row>, key: string, finding: Finding, now: int): map<string, Row> {
    rows[key := if key in rows then rows[key].(finding := finding, expiresAt := now + TTL)
                else Row(finding, finding.evidenceId, now + TTL)]
  }

  /** The write went under the key of its question. */
  ghost predicate Keyed(digest: string -> string, w: Write) { w.key == MakeKey(digest, w.asked) }

  ghost predicate AllKeyed(digest: string -> string, writes: seq<Write>) {
    forall k: nat {:trigger Keyed(digest, writes[k])} :: k < |writes| ==> Keyed(digest, writes[k])
  }

  lemma AllKeyedMore(digest: string -> string, writes: seq<Write>, w: Write)
    requires AllKeyed(digest, writes) && Keyed(digest, w)
    ensures AllKeyed(digest, writes + [w])
  {
    forall k: nat | k < |writes| + 1 ensures Keyed(digest, (writes + [w])[k]) {
      assert k < |writes| ==> Keyed(digest, writes[k]);
    }
  }

  /** The table that a sequence of accepted writes leaves. */
  function Table(writes: seq<Write>): map<string, Row> {
    if writes == [] then map[]
    else
      var last := writes[|writes| - 1];
      Upsert(Table(writes[..|writes| - 1]), last.key, last.finding, last.at)
  }

  /** The last write under a key, if there is one. */
  function LastFor(writes: seq<Write>, key: string): (last: Option<nat>)
    ensures last.None? ==> forall j :: 0 <= j < |writes| ==> writes[j].key != key
    ensures last.Some? ==>
      && last.value < |writes| && writes[last.value].key == key
      && forall j :: last.value < j < |writes| ==> writes[j].key != key
  {
    if writes == [] then None
    else if writes[|writes| - 1].key == key then Some(|writes| - 1)
    else
      var init := writes[..|writes| - 1];
      assert forall j :: 0 <= j < |init| ==> init[j] == writes[j];
      LastFor(init, key)
  }

  /** A row is there exactly for a key that was written, with the answer and the expiry of the last write. */
  lemma {:induction false} TableHoldsLast(writes: seq<Write>, key: string)
    ensures var last := LastFor(writes, key);
      && (key in Table(writes) <==> last.Some?)
      && (last.Some? ==>
            && Table(writes)[key].finding == writes[last.value].finding
            && Table(writes)[key].expiresAt == writes[last.value].at + TTL)
  {
    if writes == [] {
    } else {
      TableHoldsLast(writes[..|writes| - 1], key);
    }
  }

  /** The evidence column keeps what the first write under the key set. */
  lemma {:induction false} ColumnKeepsFirst(writes: seq<Write>, k: nat)
    requires k < |writes| && forall j :: 0 <= j < k ==> writes[j].key != writes[k].key
    ensures writes[k].key in Table(writes)
    ensures Table(writes)[writes[k].key].evidence == writes[k].finding.evidenceId
  {
    var init := writes[..|writes| - 1];
    if k == |init| {
      TableHoldsLast(init, writes[k].key);
      assert forall j :: 0 <= j < k ==> init[j].key != writes[k].key;
    } else {
      assert init[k] == writes[k];
      ColumnKeepsFirst(init, k);
    }
  }

  class CollectorCache {
    const digest: string -> string
    /** The ids in the metadata table, which others write. */
    var refs: set<string>
    var rows: map<string, Row>
    ghost var writes: seq<Write>

    /** Every write went under the key of its question, and the rows are what the writes left. */
    ghost predicate Valid()
      reads this
    {
      && AllKeyed(digest, writes)
      && rows == Table(writes)
      && (forall key :: key in rows ==> rows[key].evidence in refs)
    }

    predicate Live(key: string, now: int)
      reads this
    {
      key in rows && rows[key].expiresAt > now
    }

    constructor (digest: string -> string, refs: set<string>)
      ensures Valid() && rows == map[] && writes == [] && this.digest == digest && this.refs == refs
    {
      this.digest := digest;
      this.refs := refs;
      rows := map[];
      writes := [];
    }

    /** Another process records metadata. */
    method RecordMetadata(evidenceId: string)
      requires Valid()
      modifies this`refs
      ensures Valid() && refs == old(refs) + {evidenceId}
    {
      refs := refs + {evidenceId};
    }

    /** `None` in the result is a miss, an error is a raised exception. */
    method Get(key: string, now: int, fails: bool) returns (r: Result<Option<Finding>, ()>)
      requires Valid()
      ensures fails <==> r.Err?
      ensures !fails ==> r == Ok(if Live(key, now) then Some(rows[key].finding) else None)
    {
      if fails { return Err(()); }
      if key in rows && rows[key].expiresAt > now {
        r := Ok(Some(rows[key].finding));
      } else {
        r := Ok(None);
      }
    }

    method Put(key: string, ghost asked: Components, finding: Finding, now: int, fails: bool) returns (ok: bool)
      requires Valid() && key == MakeKey(digest, asked)
      modifies this`rows, this`writes
      ensures Valid()
      ensures ok <==> !fails && Accepts(refs, old(rows), key, finding)
      ensures rows == if ok then Upsert(old(rows), key, finding, now) else old(rows)
      ensures writes == if ok then old(writes) + [Write(key, asked, finding, now)] else old(writes)
    {
      ok := !fails && (key in rows || finding.evidenceId in refs);
      if ok {
        ghost var before := writes;
        rows := Upsert(rows, key, finding, now);
        writes := writes + [Write(key, asked, finding, now)];
        assert writes[..|writes| - 1] == before;
        AllKeyedMore(digest, before, Write(key, asked, finding, now));
      }
    }
  }

  /** The last write of an answer to this question, the scope compared as a multiset. */
  ghost predicate LastAnswer(writes: seq<Write>, asked: Components, k: nat) {
    && k < |writes| && SameQuestion(writes[k].asked, asked)
    && forall j :: k < j < |writes| ==> !SameQuestion(writes[j].asked, asked)
  }

  /** The write went under this key exactly if it answers this question. */
  ghost predicate KeyTells(w: Write, key: string, asked: Components) { w.key == key <==> SameQuestion(w.asked, asked) }

  lemma SameKeys(digest: string -> string, writes: seq<Write>, asked: Components)
    requires AllKeyed(digest, writes) && forall x, y :: digest(x) == digest(y) ==> x == y
    ensures forall k :: 0 <= k < |writes| ==> KeyTells(writes[k], MakeKey(digest, asked), asked)
  {
    forall k: nat | k < |writes| ensures KeyTells(writes[k], MakeKey(digest, asked), asked) {
      assert Keyed(digest, writes[k]);
      KeysIdentifyQuestions(digest, writes[k].asked, asked);
    }
  }

  lemma LastByKey(writes: seq<Write>, asked: Components, key: string, k: nat)
    requires forall j :: 0 <= j < |writes| ==> KeyTells(writes[j], key, asked)
    ensures LastAnswer(writes, asked, k) <==> LastFor(writes, key) == Some(k)
  {
  }

  /**
   A lookup hits exactly when the question was answered and the last answer is less than five
   minutes old; and that is the answer it finds.
   */
  lemma HitExactly(cache: CollectorCache, asked: Components, now: int)
    requires cache.Valid()
    requires forall x, y :: cache.digest(x) == cache.digest(y) ==> x == y
    ensures cache.Live(MakeKey(cache.digest, asked), now) <==>
      exists k: nat :: LastAnswer(cache.writes, asked, k) && now - cache.writes[k].at < 5 * 60 * 1_000_000
    ensures forall k: nat :: LastAnswer(cache.writes, asked, k) ==>
      && MakeKey(cache.digest, asked) in cache.rows
      && cache.rows[MakeKey(cache.digest, asked)].finding == cache.writes[k].finding
  {
    var key := MakeKey(cache.digest, asked);
    TableHoldsLast(cache.writes, key);
    SameKeys(cache.digest, cache.writes, asked);
    forall k: nat ensures LastAnswer(cache.writes, asked, k) <==> LastFor(cache.writes, key) == Some(k) {
      LastByKey(cache.writes, asked, key, k);
    }
  }

  /** In particular a hit is the answer to the same question, given less than five minutes ago. */
  lemma HitProvenance(cache: CollectorCache, asked: Components, now: int) returns (w: Write)
    requires cache.Valid() && cache.Live(MakeKey(cache.digest, asked), now)
    requires forall x, y :: cache.digest(x) == cache.digest(y) ==> x == y
    ensures w in cache.writes && SameQuestion(w.asked, asked) && now < w.at + TTL
    ensures w.finding == cache.rows[MakeKey(cache.digest, asked)].finding
  {
    HitExactly(cache, asked, now);
    var k: nat :| LastAnswer(cache.writes, asked, k) && now - cache.writes[k].at < 5 * 60 * 1_000_000;
    w := cache.writes[k];
  }

  /******* What the foreign key does and does not do *******/

  datatype PutCall = PutCall(key: string, finding: Finding, at: int)

  /** The table after a sequence of writes, those it refuses leaving no trace. */
  function AfterPuts(refs: set<string>, rows: map<string, Row>, puts: seq<PutCall>): map<string, Row> {
    if puts == [] then rows
    else
      var before, p := AfterPuts(refs, rows, puts[..|puts| - 1]), puts[|puts| - 1];
      if Accepts(refs, before, p.key, p.finding) then Upsert(before, p.key, p.finding, p.at) else before
  }

  /**
   A key is present exactly when it was, or when some write under it named evidence with
   metadata. Nothing in the orchestrator records metadata for a collector's evidence, so there
   the cache stays empty.
   */
  lemma {:induction false} CachedExactlyWithMetadata(refs: set<string>, rows: map<string, Row>, puts: seq<PutCall>,
                                                     key: string)
    ensures key in AfterPuts(refs, rows, puts) <==>
      key in rows || exists k :: 0 <= k < |puts| && puts[k].key == key && puts[k].finding.evidenceId in refs
  {
    if puts == [] {
    } else {
      var init, p := puts[..|puts| - 1], puts[|puts| - 1];
      CachedExactlyWithMetadata(refs, rows, init, key);
      if k: nat :| k < |init| && init[k].key == key && init[k].finding.evidenceId in refs {
        assert puts[k] == init[k];
      }
      if k: nat :| k < |puts| && puts[k].key == key && puts[k].finding.evidenceId in refs {
        assert k < |init| ==> init[k] == puts[k];
      }
    }
  }

  lemma NoMetadataNoCache(puts: seq<PutCall>)
    ensures AfterPuts({}, map[], puts) == map[]
  {
  }

  /** The cached answer's own evidence has metadata. */
  ghost predicate AnswersHaveMetadata(refs: set<string>, rows: map<string, Row>) {
    forall key :: key in rows ==> rows[key].finding.evidenceId in refs
  }

  /**
   The foreign key guards the column, which a refresh leaves alone, and not the answer that
   replaces the old one: an accepted write keeps the answers backed exactly when its own
   evidence has metadata.
   */
  lemma RefreshEscapesForeignKey(refs: set<string>, rows: map<string, Row>, key: string, finding: Finding, now: int)
    requires AnswersHaveMetadata(refs, rows) && Accepts(refs, rows, key, finding)
    ensures AnswersHaveMetadata(refs, Upsert(rows, key, finding, now)) <==> finding.evidenceId in refs
    ensures (forall k :: k in rows ==> rows[k].evidence in refs) ==>
      forall k :: k in Upsert(rows, key, finding, now) ==> Upsert(rows, key, finding, now)[k].evidence in refs
  {
    assert Upsert(rows, key, finding, now)[key].finding == finding;
  }
}
