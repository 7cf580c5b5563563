/** The key under which a collector's answer is cached. */
module CacheKey {
  import opened Json
  import opened JsonLayout
  import opened Text

  datatype Fingerprint = Fingerprint(
    cluster: string, account: string, region: string, deployRevision: string, rolloutGeneration: string)

  /** The parts of a key; the bounds of the time range are ISO 8601 texts. */
  datatype Components = Components(
    incidentId: string,
    collector: string,
    question: string,
    start: string,
    end: string,
    scope: seq<string>,
    fingerprint: Fingerprint)

  function Strings(ss: seq<string>): seq<Json> {
    seq(|ss|, i requires 0 <= i < |ss| => Str(ss[i]))
  }

  function FingerprintMembers(f: Fingerprint): seq<Member> {
    [Member("account", Str(f.account)),
     Member("cluster", Str(f.cluster)),
     Member("deploy_revision", Str(f.deployRevision)),
     Member("region", Str(f.region)),
     Member("rollout_generation", Str(f.rolloutGeneration))]
  }

  function RangeMembers(k: Components): seq<Member> {
    [Member("end", Str(k.end)), Member("start", Str(k.start))]
  }

  function KeyJson(k: Components): Json {
    Obj([
      Member("collector_name", Str(k.collector)),
      Member("environment_fingerprint", Obj(FingerprintMembers(k.fingerprint))),
      Member("incident_id", Str(k.incidentId)),
      Member("question", Str(k.question)),
      Member("scope_services", Arr(Strings(Sort(k.scope)))),
      Member("time_range", Obj(RangeMembers(k)))])
  }

  function MakeKey(digest: string -> string, k: Components): string {
    digest(Print(KeyJson(k)))
  }

  /** Equal parts, the scope compared as a multiset. */
  ghost predicate SameQuestion(a: Components, b: Components) {
    a.(scope := []) == b.(scope := []) && multiset(a.scope) == multiset(b.scope)
  }

  lemma StringsInjective(a: seq<string>, b: seq<string>)
    requires Strings(a) == Strings(b)
    ensures a == b
  {
    assert |Strings(a)| == |Strings(b)|;
    forall i | 0 <= i < |a| ensures a[i] == b[i] {
      assert Strings(a)[i] == Strings(b)[i];
    }
  }

  lemma KeyJsonInjective(a: Components, b: Components)
    requires KeyJson(a) == KeyJson(b)
    ensures SameQuestion(a, b)
  {
    var p, q := KeyJson(a).members, KeyJson(b).members;
    assert p[0] == q[0] && p[1] == q[1] && p[2] == q[2] && p[3] == q[3] && p[4] == q[4] && p[5] == q[5];
    var e, f := p[1].value.members, q[1].value.members;
    assert e[0] == f[0] && e[1] == f[1] && e[2] == f[2] && e[3] == f[3] && e[4] == f[4];
    var s, t := p[5].value.members, q[5].value.members;
    assert s[0] == t[0] && s[1] == t[1];
    StringsInjective(Sort(a.scope), Sort(b.scope));
    SortForgetsOrderOnly(a.scope, b.scope);
  }

  /** Two calls share a cache row exactly when they ask the same question. */
  lemma KeysIdentifyQuestions(digest: string -> string, a: Components, b: Components)
    requires forall x, y :: digest(x) == digest(y) ==> x == y
    ensures MakeKey(digest, a) == MakeKey(digest, b) <==> SameQuestion(a, b)
  {
    ParsePrint(KeyJson(a));
    ParsePrint(KeyJson(b));
    if MakeKey(digest, a) == MakeKey(digest, b) {
      KeyJsonInjective(a, b);
    } else if SameQuestion(a, b) {
      SortForgetsOrderOnly(a.scope, b.scope);
    }
  }

  /** The members of the key's text: sorted, the scope sorted too, the rest under its own name. */
  function Layout(k: Components): seq<string> {
    var f := k.fingerprint;
    [Pair("collector_name", Quote(k.collector)),
     Pair("environment_fingerprint", "{" + Joined([
       Pair("account", Quote(f.account)),
       Pair("cluster", Quote(f.cluster)),
       Pair("deploy_revision", Quote(f.deployRevision)),
       Pair("region", Quote(f.region)),
       Pair("rollout_generation", Quote(f.rolloutGeneration))]) + "}"),
     Pair("incident_id", Quote(k.incidentId)),
     Pair("question", Quote(k.question)),
     Pair("scope_services", "[" + Joined(Quotes(Sort(k.scope))) + "]"),
     Pair("time_range", "{" + Joined([Pair("end", Quote(k.end)), Pair("start", Quote(k.start))]) + "}")]
  }

  function Quotes(ss: seq<string>): seq<string> {
    if ss == [] then [] else [Quote(ss[0])] + Quotes(ss[1..])
  }

  lemma StringsCons(ss: seq<string>)
    requires ss != []
    ensures Strings(ss) == [Str(ss[0])] + Strings(ss[1..])
  {
  }

  lemma {:induction false} QuotedItems(ss: seq<string>)
    ensures PrintItems(Strings(ss)) == Quotes(ss)
  {
    if ss == [] {
    } else {
      PrintedScalar(Str(ss[0]));
      QuotedItems(ss[1..]);
      StringsCons(ss);
      PrintItemsCons(Str(ss[0]), Strings(ss[1..]));
    }
  }

  lemma FingerprintNamesPlain(f: Fingerprint)
    ensures PlainKeys(FingerprintMembers(f))
  {
    PlainNames();
    forall k | 0 <= k < 5 ensures PlainText(FingerprintMembers(f)[k].key) {}
  }

  lemma FingerprintText(f: Fingerprint)
    ensures Print(Obj(FingerprintMembers(f))) == "{" + Joined([
       Pair("account", Quote(f.account)),
       Pair("cluster", Quote(f.cluster)),
       Pair("deploy_revision", Quote(f.deployRevision)),
       Pair("region", Quote(f.region)),
       Pair("rollout_generation", Quote(f.rolloutGeneration))]) + "}"
  {
    FingerprintNamesPlain(f);
    PrintedPlainly(FingerprintMembers(f));
    FivePairs(FingerprintMembers(f));
    PrintedScalar(Str(f.account));
    PrintedScalar(Str(f.cluster));
    PrintedScalar(Str(f.deployRevision));
    PrintedScalar(Str(f.region));
    PrintedScalar(Str(f.rolloutGeneration));
  }

  lemma PlainNames()
    ensures PlainText("account") && PlainText("cluster") && PlainText("deploy_revision")
    ensures PlainText("region") && PlainText("rollout_generation")
  {
  }

  lemma RangeText(k: Components)
    ensures Print(Obj(RangeMembers(k)))
      == "{" + Joined([Pair("end", Quote(k.end)), Pair("start", Quote(k.start))]) + "}"
  {
    assert PlainText("end") && PlainText("start");
    PrintedPlainly(RangeMembers(k));
    TwoPairs(RangeMembers(k));
    PrintedScalar(Str(k.end));
    PrintedScalar(Str(k.start));
  }

  lemma PlainKeyNames()
    ensures PlainText("collector_name") && PlainText("environment_fingerprint") && PlainText("incident_id")
    ensures PlainText("question") && PlainText("scope_services") && PlainText("time_range")
  {
  }

  lemma KeyNamesPlain(k: Components)
    ensures PlainKeys(KeyJson(k).members)
  {
    PlainKeyNames();
    forall n | 0 <= n < 6 ensures PlainText(KeyJson(k).members[n].key) {}
  }

  lemma ScopeText(k: Components)
    ensures Print(Arr(Strings(Sort(k.scope)))) == "[" + Joined(Quotes(Sort(k.scope))) + "]"
  {
    PrintedArray(Strings(Sort(k.scope)));
    QuotedItems(Sort(k.scope));
  }

  lemma KeyPairs(k: Components)
    ensures Pairs(KeyJson(k).members) == Layout(k)
  {
    SixPairs(KeyJson(k).members);
    PrintedScalar(Str(k.collector));
    FingerprintText(k.fingerprint);
    PrintedScalar(Str(k.incidentId));
    PrintedScalar(Str(k.question));
    ScopeText(k);
    RangeText(k);
  }

  /** The key is the digest of this text. */
  lemma KeyLayout(digest: string -> string, k: Components)
    ensures MakeKey(digest, k) == digest("{" + Joined(Layout(k)) + "}")
  {
    KeyNamesPlain(k);
    KeyPairs(k);
    PrintedPlainly(KeyJson(k).members);
  }
}
