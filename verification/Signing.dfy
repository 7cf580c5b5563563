/**
 Hashing, signing and verifying action intents. The digest and the signature scheme are
 parameters; what is proved is which fields they bind.
 */
module Signing {
  import opened Json
  import opened JsonLayout
  import opened Schemas
  import opened Text

  /** A key pair's operations: digest, sign, and check(signature, message). */
  datatype Crypto = Crypto(digest: string -> string, sign: string -> string, check: (string, string) -> bool)

  ghost predicate CollisionFree(c: Crypto) {
    forall a, b :: c.digest(a) == c.digest(b) ==> a == b
  }

  /** The verifying key belongs to the signing key. */
  ghost predicate MatchingKeys(c: Crypto) {
    forall m :: c.check(c.sign(m), m)
  }

  /******* Objects with sorted keys *******/

  /** What `sort_keys=True` makes of a dictionary. */
  function SortedMembers(m: map<string, Json>): seq<Member> {
    var ks := SortedSet(m.Keys);
    seq(|ks|, i requires 0 <= i < |ks| => assert ks[i] in ks; Member(ks[i], m[ks[i]]))
  }

  function MapOf(ms: seq<Member>): map<string, Json> {
    if ms == [] then map[] else MapOf(ms[..|ms| - 1])[ms[|ms| - 1].key := ms[|ms| - 1].value]
  }

  lemma {:induction false} MapOfMembers(ms: seq<Member>, m: map<string, Json>)
    requires forall i :: 0 <= i < |ms| ==> ms[i].key in m && m[ms[i].key] == ms[i].value
    ensures forall k :: k in MapOf(ms) <==> exists i :: 0 <= i < |ms| && ms[i].key == k
    ensures forall k :: k in MapOf(ms) ==> k in m && MapOf(ms)[k] == m[k]
  {
    if ms == [] {
    } else {
      MapOfMembers(ms[..|ms| - 1], m);
    }
  }

  /** The sorted members hold the dictionary exactly. */
  lemma SortedMembersRoundTrip(m: map<string, Json>)
    ensures MapOf(SortedMembers(m)) == m
  {
    var ks := SortedSet(m.Keys);
    var ms := SortedMembers(m);
    forall i | 0 <= i < |ms| ensures ms[i].key in m && m[ms[i].key] == ms[i].value {
      assert ks[i] in ks;
    }
    MapOfMembers(ms, m);
    forall k | k in m ensures k in MapOf(ms) {
      assert k in ks;
      var i :| 0 <= i < |ks| && ks[i] == k;
      assert ms[i].key == k;
    }
  }

  /******* The hash of an intent *******/

  function TypeName(t: ActionType): string {
    match t
    case Query => "query"
    case FixAttempt => "fix_attempt"
    case Rollback => "rollback"
    case Scale => "scale"
    case FlagFlip => "flag_flip"
    case Notification => "notification"
    case NoOp => "no_op"
  }

  lemma TypeNameInjective(a: ActionType, b: ActionType)
    requires TypeName(a) == TypeName(b)
    ensures a == b
  {
  }

  /** The five fields that say what an action does. */
  datatype Fields = Fields(
    actionType: ActionType, target: string, parameters: map<string, Param>,
    expectedEffect: string, rollbackHint: string)

  function FieldsOf(i: ActionIntent): Fields {
    Fields(i.actionType, i.target, i.parameters, i.expectedEffect, i.rollbackHint)
  }

  function Payload(f: Fields): Json {
    Obj([
      Member("action_type", Str(TypeName(f.actionType))),
      Member("expected_effect", Str(f.expectedEffect)),
      Member("parameters", Obj(SortedMembers(f.parameters))),
      Member("rollback_hint", Str(f.rollbackHint)),
      Member("target", Str(f.target))])
  }

  /** The payload's keys, and those of its parameters, stand in sorted order. */
  lemma PayloadKeysSorted(f: Fields)
    ensures var p := Payload(f).members;
      && Leq(p[0].key, p[1].key) && Leq(p[1].key, p[2].key) && Leq(p[2].key, p[3].key) && Leq(p[3].key, p[4].key)
    ensures var ps := Payload(f).members[2].value.members;
      forall i, j :: 0 <= i < j < |ps| ==> Leq(ps[i].key, ps[j].key) && ps[i].key != ps[j].key
  {
    SortedSetStrict(f.parameters.Keys);
  }

  function Canonical(f: Fields): string {
    Print(Payload(f))
  }

  lemma PayloadKeysPlain(f: Fields)
    ensures PlainKeys(Payload(f).members)
  {
    assert PlainText("action_type");
    assert PlainText("expected_effect");
    assert PlainText("parameters");
    assert PlainText("rollback_hint");
    assert PlainText("target");
  }

  /** The members of the payload as they are printed. */
  function Layout(f: Fields): seq<string> {
    [Pair("action_type", Quote(TypeName(f.actionType))),
     Pair("expected_effect", Quote(f.expectedEffect)),
     Pair("parameters", Print(Obj(SortedMembers(f.parameters)))),
     Pair("rollback_hint", Quote(f.rollbackHint)),
     Pair("target", Quote(f.target))]
  }

  lemma PayloadPairs(f: Fields)
    ensures Pairs(Payload(f).members) == Layout(f)
  {
    FivePairs(Payload(f).members);
    PrintedScalar(Str(TypeName(f.actionType)));
    PrintedScalar(Str(f.expectedEffect));
    PrintedScalar(Str(f.rollbackHint));
    PrintedScalar(Str(f.target));
  }

  /** The canonical form: five sorted keys with the texts of their values, no white space, ASCII only. */
  lemma CanonicalLayout(f: Fields)
    ensures Canonical(f) == "{" + Joined(Layout(f)) + "}"
    ensures Ascii(Canonical(f))
  {
    PayloadKeysPlain(f);
    PayloadPairs(f);
    PrintedPlainly(Payload(f).members);
    PrintIsAscii(Payload(f));
  }

  /** The names of the types that a plan can lead to. */
  lemma MutatingNames()
    ensures TypeName(Rollback) == "rollback" && TypeName(Scale) == "scale" && TypeName(FlagFlip) == "flag_flip"
  {
  }

  /** The canonical form determines the five fields, the parameters as a dictionary. */
  lemma CanonicalInjective(f: Fields, g: Fields)
    ensures Canonical(f) == Canonical(g) <==> f == g
  {
    if Canonical(f) == Canonical(g) {
      ParsePrint(Payload(f));
      ParsePrint(Payload(g));
      var p, q := Payload(f).members, Payload(g).members;
      assert p[0] == q[0] && p[1] == q[1] && p[2] == q[2] && p[3] == q[3] && p[4] == q[4];
      TypeNameInjective(f.actionType, g.actionType);
      SortedMembersRoundTrip(f.parameters);
      SortedMembersRoundTrip(g.parameters);
    }
  }

  function IntentHash(c: Crypto, f: Fields): string {
    c.digest(Canonical(f))
  }

  /**
   Two intents have the same hash exactly when the five fields agree; expiry, signer and
   approval play no part.
   */
  lemma HashBinding(c: Crypto, i: ActionIntent, j: ActionIntent)
    requires CollisionFree(c)
    ensures IntentHash(c, FieldsOf(i)) == IntentHash(c, FieldsOf(j)) <==> FieldsOf(i) == FieldsOf(j)
  {
    CanonicalInjective(FieldsOf(i), FieldsOf(j));
  }

  /******* Signing and verifying *******/

  function Sign(c: Crypto, i: ActionIntent): ActionIntent {
    var h := IntentHash(c, FieldsOf(i));
    i.(hash := h, signature := c.sign(h))
  }

  datatype Verdict = Valid | HashMismatch | BadSignature

  function Verify(c: Crypto, i: ActionIntent): Verdict {
    if i.hash != IntentHash(c, FieldsOf(i)) then HashMismatch
    else if !c.check(i.signature, i.hash) then BadSignature
    else Valid
  }

  /**
   What verifying means: the stored hash is the digest of the canonical form of the fields that
   are there, and the signature checks against it; of an intent that fails, which of the two.
   */
  lemma VerifiesExactly(c: Crypto, i: ActionIntent)
    ensures Verify(c, i) == Valid <==>
      i.hash == c.digest(Canonical(FieldsOf(i))) && c.check(i.signature, i.hash)
    ensures Verify(c, i) == HashMismatch <==> i.hash != c.digest(Canonical(FieldsOf(i)))
    ensures Verify(c, i) == BadSignature <==>
      i.hash == c.digest(Canonical(FieldsOf(i))) && !c.check(i.signature, i.hash)
  {
  }

  type Verifier = ActionIntent -> Verdict

  /** The coordinator's verifier: it holds the public key only. */
  function VerifierOf(c: Crypto): Verifier {
    i => Verify(c, i)
  }

  /** Signing keeps every field but the two it fills, and what it fills verifies. */
  lemma SignThenVerify(c: Crypto, i: ActionIntent)
    requires MatchingKeys(c)
    ensures Verify(c, Sign(c, i)) == Valid
    ensures Sign(c, i).(hash := i.hash, signature := i.signature) == i
    ensures Sign(c, Sign(c, i)) == Sign(c, i)
    ensures Sign(c, i).hash == c.digest(Canonical(FieldsOf(i))) && Sign(c, i).signature == c.sign(Sign(c, i).hash)
  {
  }

  /**
   What a signature is worth: an altered copy that keeps hash and signature verifies exactly
   when none of the five fields was altered, and is otherwise reported as a hash mismatch.
   */
  lemma SignatureBindsExactlyTheFields(c: Crypto, i: ActionIntent, altered: ActionIntent)
    requires CollisionFree(c) && Verify(c, i) == Valid
    requires altered.hash == i.hash && altered.signature == i.signature
    ensures Verify(c, altered) == Valid <==> FieldsOf(altered) == FieldsOf(i)
    ensures Verify(c, altered) == if FieldsOf(altered) == FieldsOf(i) then Valid else HashMismatch
  {
    HashBinding(c, i, altered);
  }

  /** Among intents that verify, the stored hash identifies the five fields. */
  lemma VerifiedHashIdentifies(c: Crypto, i: ActionIntent, j: ActionIntent)
    requires CollisionFree(c) && Verify(c, i) == Valid && Verify(c, j) == Valid
    ensures i.hash == j.hash <==> FieldsOf(i) == FieldsOf(j)
  {
    HashBinding(c, i, j);
  }
}
