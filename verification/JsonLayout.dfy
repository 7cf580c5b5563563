/** What canonical JSON text looks like, beyond being readable. */
module JsonLayout {
  import opened Json
  import opened Text

  /** A character that stands for itself inside a string: printable ASCII but the quote and the backslash. */
  predicate Plain(c: char) { ' ' <= c <= '~' && c != '"' && c != '\\' }

  /**
   One code unit takes one character exactly when it is plain, two exactly when it is one of the
   seven with a letter, and otherwise the six of \uXXXX; all of them printable ASCII.
   */
  lemma EscapeForm(u: Unit)
    ensures |Escape(u)| == 1 <==> 0x20 <= u <= 0x7E && u != 0x22 && u != 0x5C
    ensures |Escape(u)| == 1 ==> Escape(u)[0] as int == u
    ensures |Escape(u)| == 2 <==> u in {0x08, 0x09, 0x0A, 0x0C, 0x0D, 0x22, 0x5C}
    ensures |Escape(u)| == 1 || |Escape(u)| == 2 || (|Escape(u)| == 6 && Escape(u)[..2] == "\\u")
    ensures forall i :: 0 <= i < |Escape(u)| ==> ' ' <= Escape(u)[i] <= '~'
  {
  }

  lemma HexIsLower(u: Unit)
    ensures forall i :: 0 <= i < 4 ==> '0' <= HexForm(u)[i] <= '9' || 'a' <= HexForm(u)[i] <= 'f'
  {
  }

  /** For instance. */
  lemma EscapeSamples()
    ensures Escape(0x22) == "\\\"" && Escape(0x5C) == "\\\\"
    ensures Escape(0x0A) == "\\n" && Escape(0x0D) == "\\r" && Escape(0x09) == "\\t"
    ensures Escape(0x0C) == "\\f" && Escape(0x08) == "\\b"
  {
  }

  lemma MoreSamples()
    ensures Escape(0xE9) == "\\u00e9" && Escape(0x7F) == "\\u007f"
    ensures ToUnits("\U{1F600}") == [0xD83D, 0xDE00]
    ensures Decimal(1207) == "1207" && Decimal(-35) == "-35"
  {
    assert "\U{1F600}"[1..] == "";
    assert Digits(12) == "12" && Digits(120) == "120";
  }

  predicate Ascii(t: string) { forall i :: 0 <= i < |t| ==> ' ' <= t[i] <= '~' }

  lemma {:induction false} EscapeAllIsAscii(us: seq<Unit>)
    ensures Ascii(EscapeAll(us))
  {
    if us == [] {
    } else {
      EscapeForm(us[0]);
      EscapeAllIsAscii(us[1..]);
    }
  }

  lemma {:induction false} DigitsAreAscii(n: nat)
    ensures Ascii(Digits(n))
  {
    if n < 10 {
    } else {
      DigitsAreAscii(n / 10);
    }
  }

  lemma SpellIsAscii(k: Token)
    ensures Ascii(Spell(k))
  {
    match k
    case Text(s) => EscapeAllIsAscii(ToUnits(s));
    case Number(n) => DigitsAreAscii(if n < 0 then -n else n);
    case _ =>
  }

  lemma {:induction false} SpellAllIsAscii(ks: seq<Token>)
    ensures Ascii(SpellAll(ks))
  {
    if ks == [] {
    } else {
      SpellIsAscii(ks[0]);
      SpellAllIsAscii(ks[1..]);
    }
  }

  /** The text is ASCII, whatever the strings in the tree. */
  lemma PrintIsAscii(j: Json)
    ensures Ascii(Print(j))
  {
    SpellAllIsAscii(Tokens(j));
  }

  predicate PlainText(s: string) { forall i :: 0 <= i < |s| ==> Plain(s[i]) }

  lemma {:induction false} PlainEscapes(s: string)
    requires PlainText(s)
    ensures EscapeAll(ToUnits(s)) == s
  {
    if s == "" {
    } else {
      PlainEscapes(s[1..]);
      EscapeForm(s[0] as int);
      assert ToUnits(s) == [s[0] as int] + ToUnits(s[1..]);
      assert (ToUnits(s))[1..] == ToUnits(s[1..]);
      assert s == [s[0]] + s[1..];
    }
  }

  /** A plain text is quoted as it is. */
  lemma PlainQuote(s: string)
    requires PlainText(s)
    ensures Quote(s) == "\"" + s + "\""
  {
    PlainEscapes(s);
  }

  lemma {:induction false} SpellConcat(a: seq<Token>, b: seq<Token>)
    ensures SpellAll(a + b) == SpellAll(a) + SpellAll(b)
  {
    if a == [] {
      assert a + b == b;
    } else {
      assert (a + b)[1..] == a[1..] + b;
      SpellConcat(a[1..], b);
    }
  }

  lemma SpellOne(k: Token)
    ensures SpellAll([k]) == Spell(k)
  {
    assert [k][1..] == [];
  }

  /** The parts, a comma between each two. */
  function Joined(parts: seq<string>): string {
    if parts == [] then ""
    else if |parts| == 1 then parts[0]
    else parts[0] + "," + Joined(parts[1..])
  }

  function PrintMember(m: Member): string { Quote(m.key) + ":" + Print(m.value) }

  function PrintMembers(ms: seq<Member>): seq<string> {
    if ms == [] then [] else [PrintMember(ms[0])] + PrintMembers(ms[1..])
  }

  function PrintItems(items: seq<Json>): seq<string> {
    if items == [] then [] else [Print(items[0])] + PrintItems(items[1..])
  }

  lemma PrintItemsCons(j: Json, rest: seq<Json>)
    ensures PrintItems([j] + rest) == [Print(j)] + PrintItems(rest)
  {
    assert ([j] + rest)[1..] == rest;
  }

  lemma SpellMember(m: Member)
    ensures SpellAll(OneMember(m)) == PrintMember(m)
  {
    SpellOne(Text(m.key));
    SpellOne(Colon);
    SpellConcat([Text(m.key)], [Colon]);
    SpellConcat([Text(m.key), Colon], Tokens(m.value));
    assert [Text(m.key)] + [Colon] == [Text(m.key), Colon];
  }

  lemma SpellThree(a: seq<Token>, k: Token, b: seq<Token>)
    ensures SpellAll(a + [k] + b) == SpellAll(a) + Spell(k) + SpellAll(b)
  {
    SpellConcat(a, [k]);
    SpellConcat(a + [k], b);
    SpellOne(k);
  }

  lemma {:induction false} SpellMembers(ms: seq<Member>)
    requires ms != []
    ensures SpellAll(MemberTokens(ms)) == Joined(PrintMembers(ms)) + "}"
  {
    SpellMember(ms[0]);
    if |ms| == 1 {
      SpellThree(OneMember(ms[0]), CloseBrace, MemberTokens(ms[1..]));
      assert PrintMembers(ms) == [PrintMember(ms[0])];
    } else {
      SpellThree(OneMember(ms[0]), Comma, MemberTokens(ms[1..]));
      SpellMembers(ms[1..]);
      assert PrintMembers(ms)[1..] == PrintMembers(ms[1..]) && |PrintMembers(ms)| > 1;
      Regroup(PrintMember(ms[0]) + ",", Joined(PrintMembers(ms[1..])), "}");
    }
  }

  lemma {:induction false} SpellItems(items: seq<Json>)
    requires items != []
    ensures SpellAll(ItemTokens(items)) == Joined(PrintItems(items)) + "]"
  {
    if |items| == 1 {
      SpellThree(Tokens(items[0]), CloseBracket, ItemTokens(items[1..]));
      assert PrintItems(items) == [Print(items[0])];
    } else {
      SpellThree(Tokens(items[0]), Comma, ItemTokens(items[1..]));
      SpellItems(items[1..]);
      assert PrintItems(items)[1..] == PrintItems(items[1..]) && |PrintItems(items)| > 1;
      Regroup(Print(items[0]) + ",", Joined(PrintItems(items[1..])), "]");
    }
  }

  /** The text of an object in terms of the texts of its parts: no white space anywhere between them ... */
  lemma PrintedObject(members: seq<Member>)
    ensures Print(Obj(members)) == "{" + Joined(PrintMembers(members)) + "}"
  {
    SpellOne(OpenBrace);
    if members == [] {
      SpellConcat([OpenBrace], [CloseBrace]);
      SpellOne(CloseBrace);
    } else {
      SpellConcat([OpenBrace], MemberTokens(members));
      SpellMembers(members);
    }
  }

  /** ... of an array ... */
  lemma PrintedArray(items: seq<Json>)
    ensures Print(Arr(items)) == "[" + Joined(PrintItems(items)) + "]"
  {
    SpellOne(OpenBracket);
    if items == [] {
      SpellConcat([OpenBracket], [CloseBracket]);
      SpellOne(CloseBracket);
    } else {
      SpellConcat([OpenBracket], ItemTokens(items));
      SpellItems(items);
    }
  }

  /** ... and of what has no parts. */
  lemma PrintedScalar(j: Json)
    ensures j.Str? ==> Print(j) == Quote(j.s)
    ensures j.Int? ==> Print(j) == Decimal(j.n)
    ensures j.Bool? ==> Print(j) == if j.b then "true" else "false"
  {
    match j
    case Str(s) => SpellOne(Text(s));
    case Int(n) => SpellOne(Number(n));
    case Bool(b) => SpellOne(Word(b));
    case _ =>
  }

  /** A member with a plain key, given the text of its value. */
  function Pair(key: string, value: string): string { "\"" + key + "\":" + value }

  lemma PlainMember(m: Member)
    requires PlainText(m.key)
    ensures PrintMember(m) == Pair(m.key, Print(m.value))
  {
    PlainQuote(m.key);
  }

  predicate PlainKeys(ms: seq<Member>) { forall k :: 0 <= k < |ms| ==> PlainText(ms[k].key) }

  function PairOf(m: Member): string { Pair(m.key, Print(m.value)) }

  function Pairs(ms: seq<Member>): seq<string> {
    if ms == [] then [] else [PairOf(ms[0])] + Pairs(ms[1..])
  }

  lemma {:induction false} PairsAt(ms: seq<Member>, i: nat)
    ensures |Pairs(ms)| == |ms|
    ensures i < |ms| ==> Pairs(ms)[i] == PairOf(ms[i])
  {
    if ms == [] {
    } else {
      PairsAt(ms[1..], if i == 0 then 0 else i - 1);
    }
  }

  lemma {:induction false} PlainMembers(ms: seq<Member>)
    requires PlainKeys(ms)
    ensures PrintMembers(ms) == Pairs(ms)
  {
    if ms == [] {
    } else {
      PlainMember(ms[0]);
      PlainMembers(ms[1..]);
    }
  }

  /** An object whose keys are plain. */
  lemma PrintedPlainly(members: seq<Member>)
    requires PlainKeys(members)
    ensures Print(Obj(members)) == "{" + Joined(Pairs(members)) + "}"
  {
    PlainMembers(members);
    PrintedObject(members);
  }

  lemma TwoPairs(ms: seq<Member>)
    requires |ms| == 2
    ensures Pairs(ms) == [PairOf(ms[0]), PairOf(ms[1])]
  {
    PairsAt(ms, 0);
    PairsAt(ms, 1);
  }

  lemma FivePairs(ms: seq<Member>)
    requires |ms| == 5
    ensures Pairs(ms) == [PairOf(ms[0]), PairOf(ms[1]), PairOf(ms[2]), PairOf(ms[3]), PairOf(ms[4])]
  {
    forall i: nat | i < 5 ensures |Pairs(ms)| == 5 && Pairs(ms)[i] == PairOf(ms[i]) { PairsAt(ms, i); }
  }

  lemma SixPairs(ms: seq<Member>)
    requires |ms| == 6
    ensures Pairs(ms) == [PairOf(ms[0]), PairOf(ms[1]), PairOf(ms[2]), PairOf(ms[3]), PairOf(ms[4]), PairOf(ms[5])]
  {
    forall i: nat | i < 6 ensures |Pairs(ms)| == 6 && Pairs(ms)[i] == PairOf(ms[i]) { PairsAt(ms, i); }
  }
}
