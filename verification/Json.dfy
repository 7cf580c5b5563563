/**
 The canonical JSON text that `json.dumps(..., separators=(",", ":"), ensure_ascii=True)`
 writes, and a reader for it. The reader shows that nothing is lost: it recovers every
 tree from its text (section 7 of RFC 8259 for the strings, surrogate pairs included).
 */
module Json {
  import opened Text

  datatype Json =
    | Str(s: string)
    | Int(n: int)
    | Bool(b: bool)
    | Arr(items: seq<Json>)
    | Obj(members: seq<Member>)

  datatype Member = Member(key: string, value: Json)

  /** What a reader found, and the text after it. */
  datatype Read<+T> = Read(value: T, rest: string)

  /******* Characters: UTF-16 code units and their escapes *******/

  type Unit = u: int | 0 <= u < 0x10000

  function UnitsOf(c: char): seq<Unit> {
    var u := c as int;
    if u < 0x10000 then [u] else [0xD800 + (u - 0x10000) / 0x400, 0xDC00 + (u - 0x10000) % 0x400]
  }

  function JoinPair(high: int, low: int): char
    requires 0xD800 <= high < 0xDC00 <= low < 0xE000
  {
    (0x10000 + (high - 0xD800) * 0x400 + (low - 0xDC00)) as char
  }

  function ToUnits(s: string): seq<Unit> {
    if s == "" then [] else UnitsOf(s[0]) + ToUnits(s[1..])
  }

  /** Joins surrogate pairs; a lone surrogate is no character. */
  function FromUnits(us: seq<Unit>): Option<string> {
    if us == [] then Some("")
    else if 0xD800 <= us[0] < 0xDC00 then
      if |us| >= 2 && 0xDC00 <= us[1] < 0xE000 then
        match FromUnits(us[2..])
        case None => None
        case Some(tail) => Some([JoinPair(us[0], us[1])] + tail)
      else None
    else if 0xDC00 <= us[0] < 0xE000 then None
    else
      match FromUnits(us[1..])
      case None => None
      case Some(tail) => Some([us[0] as char] + tail)
  }

  lemma {:induction false} UnitsRoundTrip(s: string)
    ensures FromUnits(ToUnits(s)) == Some(s)
  {
    if s == "" {
    } else {
      UnitsRoundTrip(s[1..]);
      var head, tail := UnitsOf(s[0]), ToUnits(s[1..]);
      assert (head + tail)[|head|..] == tail;
      assert s == [s[0]] + s[1..];
    }
  }

  function HexDigit(n: int): char
    requires 0 <= n < 16
  {
    if n < 10 then ('0' as int + n) as char else ('a' as int + n - 10) as char
  }

  function HexValue(c: char): Option<int> {
    if '0' <= c <= '9' then Some(c as int - '0' as int)
    else if 'a' <= c <= 'f' then Some(c as int - 'a' as int + 10)
    else None
  }

  /** The letter of a two-character escape. */
  function Letter(u: Unit): Option<char> {
    match u
    case 0x22 => Some('"')
    case 0x5C => Some('\\')
    case 0x0A => Some('n')
    case 0x0D => Some('r')
    case 0x09 => Some('t')
    case 0x0C => Some('f')
    case 0x08 => Some('b')
    case _ => None
  }

  function OfLetter(c: char): Option<Unit> {
    match c
    case '"' => Some(0x22)
    case '\\' => Some(0x5C)
    case 'n' => Some(0x0A)
    case 'r' => Some(0x0D)
    case 't' => Some(0x09)
    case 'f' => Some(0x0C)
    case 'b' => Some(0x08)
    case _ => None
  }

  function HexForm(u: Unit): string {
    var q1 := u / 16;
    var q2 := q1 / 16;
    [HexDigit(q2 / 16), HexDigit(q2 % 16), HexDigit(q1 % 16), HexDigit(u % 16)]
  }

  function OfHexForm(t: string): Option<Unit>
    requires |t| == 4
  {
    match (HexValue(t[0]), HexValue(t[1]), HexValue(t[2]), HexValue(t[3]))
    case (Some(a), Some(b), Some(c), Some(d)) => Some(((a * 16 + b) * 16 + c) * 16 + d)
    case _ => None
  }

  lemma HexDigitValue(n: int)
    requires 0 <= n < 16
    ensures HexValue(HexDigit(n)) == Some(n)
  {
  }

  lemma HexRoundTrip(u: Unit)
    ensures OfHexForm(HexForm(u)) == Some(u)
  {
    var q1 := u / 16;
    var q2 := q1 / 16;
    HexDigitValue(q2 / 16);
    HexDigitValue(q2 % 16);
    HexDigitValue(q1 % 16);
    HexDigitValue(u % 16);
  }

  /** The escape of one code unit: a two-character form, printable ASCII as it is, or \uXXXX. */
  function Escape(u: Unit): string {
    if Letter(u).Some? then ['\\', Letter(u).value]
    else if 0x20 <= u <= 0x7E then [u as char]
    else "\\u" + HexForm(u)
  }

  /** Reads one escaped unit. `None` at a closing quote, at the end or on bad text. */
  function ReadUnit(t: string): (r: Option<Read<Unit>>)
    ensures r.Some? ==> |r.value.rest| < |t|
  {
    if t == "" || t[0] == '"' then None
    else if t[0] != '\\' then
      var u := t[0] as int;
      if 0x20 <= u <= 0x7E then Some(Read(u, t[1..])) else None
    else if |t| < 2 then None
    else if t[1] == 'u' then
      if |t| < 6 || OfHexForm(t[2..6]) == None then None
      else Some(Read(OfHexForm(t[2..6]).value, t[6..]))
    else
      match OfLetter(t[1])
      case None => None
      case Some(u) => Some(Read(u, t[2..]))
  }

  lemma ReadEscape(u: Unit, rest: string)
    ensures ReadUnit(Escape(u) + rest) == Some(Read(u, rest))
  {
    var t := Escape(u) + rest;
    if Letter(u).Some? {
      assert t[0] == '\\' && t[1] == Letter(u).value && t[2..] == rest;
    } else if 0x20 <= u <= 0x7E {
      assert t[0] == u as char && t[1..] == rest;
    } else {
      assert t[0] == '\\' && t[1] == 'u' && t[2..6] == HexForm(u) && t[6..] == rest;
      HexRoundTrip(u);
    }
  }

  function EscapeAll(us: seq<Unit>): string {
    if us == [] then "" else Escape(us[0]) + EscapeAll(us[1..])
  }

  /** Reads escaped units up to and including the closing quote. */
  function ReadUnits(t: string): (r: Option<Read<seq<Unit>>>)
    ensures r.Some? ==> |r.value.rest| < |t|
    decreases |t|
  {
    if t != "" && t[0] == '"' then Some(Read([], t[1..]))
    else
      match ReadUnit(t)
      case None => None
      case Some(Read(u, rest)) =>
        match ReadUnits(rest)
        case None => None
        case Some(Read(us, rest')) => Some(Read([u] + us, rest'))
  }

  lemma {:induction false} ReadEscapeAll(us: seq<Unit>, rest: string)
    ensures ReadUnits(EscapeAll(us) + "\"" + rest) == Some(Read(us, rest))
  {
    if us == [] {
      assert "" + "\"" + rest == "\"" + rest;
    } else {
      var tail := EscapeAll(us[1..]) + "\"" + rest;
      assert EscapeAll(us) + "\"" + rest == Escape(us[0]) + tail;
      ReadEscape(us[0], tail);
      ReadEscapeAll(us[1..], rest);
      EscapeStart(us[0], tail);
      assert us == [us[0]] + us[1..];
    }
  }

  lemma EscapeStart(u: Unit, rest: string)
    ensures (Escape(u) + rest)[0] != '"'
  {
  }

  function Quote(s: string): string {
    "\"" + EscapeAll(ToUnits(s)) + "\""
  }

  function ReadString(t: string): (r: Option<Read<string>>)
    ensures r.Some? ==> |r.value.rest| < |t|
  {
    if t == "" || t[0] != '"' then None
    else
      match ReadUnits(t[1..])
      case None => None
      case Some(Read(us, rest)) =>
        match FromUnits(us)
        case None => None
        case Some(s) => Some(Read(s, rest))
  }

  lemma ReadQuote(s: string, rest: string)
    ensures ReadString(Quote(s) + rest) == Some(Read(s, rest))
  {
    var us := ToUnits(s);
    assert (Quote(s) + rest)[1..] == EscapeAll(us) + "\"" + rest;
    ReadEscapeAll(us, rest);
    UnitsRoundTrip(s);
  }

  /******* Integers *******/

  predicate IsDigit(c: char) { '0' <= c <= '9' }

  function Digits(n: nat): string {
    if n < 10 then [HexDigit(n)] else Digits(n / 10) + [HexDigit(n % 10)]
  }

  function DigitsValue(ds: string): nat
    requires forall i :: 0 <= i < |ds| ==> IsDigit(ds[i])
  {
    if ds == "" then 0
    else
      var last := ds[|ds| - 1];
      assert IsDigit(last);
      DigitsValue(ds[..|ds| - 1]) * 10 + (last as int - '0' as int)
  }

  lemma {:induction false} DigitsRoundTrip(n: nat)
    ensures Digits(n) != "" && forall i :: 0 <= i < |Digits(n)| ==> IsDigit(Digits(n)[i])
    ensures DigitsValue(Digits(n)) == n
  {
    if n >= 10 {
      DigitsRoundTrip(n / 10);
      var ds := Digits(n / 10);
      assert (ds + [HexDigit(n % 10)])[..|ds|] == ds;
    } else {
      assert [HexDigit(n)][..0] == "";
    }
  }

  /** The longest prefix of digits. */
  function Span(t: string): (k: nat)
    ensures k <= |t|
    ensures forall i :: 0 <= i < k ==> IsDigit(t[i])
    ensures k < |t| ==> !IsDigit(t[k])
  {
    if t == "" || !IsDigit(t[0]) then 0
    else
      var k := Span(t[1..]);
      assert forall i :: 1 <= i < k + 1 ==> t[i] == t[1..][i - 1];
      k + 1
  }

  function Decimal(n: int): string {
    if n < 0 then "-" + Digits(-n) else Digits(n)
  }

  function ReadDigits(t: string): (r: Option<Read<nat>>)
    ensures r.Some? ==> |r.value.rest| < |t|
  {
    var k := Span(t);
    if k == 0 then None else Some(Read(DigitsValue(t[..k]), t[k..]))
  }

  function ReadInt(t: string): (r: Option<Read<int>>)
    ensures r.Some? ==> |r.value.rest| < |t|
  {
    if t != "" && t[0] == '-' then
      match ReadDigits(t[1..])
      case None => None
      case Some(r) => Some(Read(-(r.value as int), r.rest))
    else
      match ReadDigits(t)
      case None => None
      case Some(r) => Some(Read(r.value as int, r.rest))
  }

  /** What follows a value in a text: nothing, or a character that ends an integer. */
  predicate Ends(rest: string) { rest == "" || !IsDigit(rest[0]) }

  lemma ReadDigitsOfDigits(n: nat, rest: string)
    requires Ends(rest)
    ensures ReadDigits(Digits(n) + rest) == Some(Read(n, rest))
  {
    DigitsRoundTrip(n);
    var ds := Digits(n);
    var t := ds + rest;
    assert forall i :: 0 <= i < |ds| ==> t[i] == ds[i];
    assert rest != "" ==> t[|ds|] == rest[0];
    assert Span(t) == |ds|;
    assert t[..|ds|] == ds && t[|ds|..] == rest;
  }

  lemma ReadMinus(t: string, m: nat, rest: string)
    requires t != "" && t[0] == '-' && ReadDigits(t[1..]) == Some(Read(m, rest))
    ensures ReadInt(t) == Some(Read(-(m as int), rest))
  {
  }

  lemma ReadNegative(m: nat, rest: string)
    requires Ends(rest)
    ensures ReadInt("-" + Digits(m) + rest) == Some(Read(-(m as int), rest))
  {
    var ds := Digits(m) + rest;
    ReadDigitsOfDigits(m, rest);
    var t := "-" + Digits(m) + rest;
    assert t == "-" + ds;
    assert t[1..] == ds;
    ReadMinus(t, m, rest);
  }

  lemma ReadNonNegative(m: nat, rest: string)
    requires Ends(rest)
    ensures (Digits(m) + rest)[0] != '-' && IsDigit((Digits(m) + rest)[0])
    ensures ReadInt(Digits(m) + rest) == Some(Read(m as int, rest))
  {
    DigitsRoundTrip(m);
    assert (Digits(m) + rest)[0] == Digits(m)[0];
    ReadDigitsOfDigits(m, rest);
  }

  /******* Tokens *******/

  datatype Token =
    | OpenBracket | CloseBracket | OpenBrace | CloseBrace | Comma | Colon
    | Word(b: bool)
    | Text(s: string)
    | Number(n: int)

  function Spell(k: Token): string {
    match k
    case OpenBracket => "["
    case CloseBracket => "]"
    case OpenBrace => "{"
    case CloseBrace => "}"
    case Comma => ","
    case Colon => ":"
    case Word(b) => if b then "true" else "false"
    case Text(s) => Quote(s)
    case Number(n) => Decimal(n)
  }

  function SpellAll(ks: seq<Token>): string {
    if ks == [] then "" else Spell(ks[0]) + SpellAll(ks[1..])
  }

  function ReadMark(c: char): Option<Token> {
    match c
    case '[' => Some(OpenBracket)
    case ']' => Some(CloseBracket)
    case '{' => Some(OpenBrace)
    case '}' => Some(CloseBrace)
    case ',' => Some(Comma)
    case ':' => Some(Colon)
    case _ => None
  }

  function ReadWord(t: string): (r: Option<Read<Token>>)
    ensures r.Some? ==> |r.value.rest| < |t|
  {
    if |t| >= 4 && t[..4] == "true" then Some(Read(Word(true), t[4..]))
    else if |t| >= 5 && t[..5] == "false" then Some(Read(Word(false), t[5..]))
    else None
  }

  function ReadToken(t: string): (r: Option<Read<Token>>)
    ensures r.Some? ==> |r.value.rest| < |t|
  {
    if t == "" then None
    else if ReadMark(t[0]).Some? then Some(Read(ReadMark(t[0]).value, t[1..]))
    else if t[0] == '"' then
      match ReadString(t)
      case None => None
      case Some(r) => Some(Read(Text(r.value), r.rest))
    else if t[0] == '-' || IsDigit(t[0]) then
      match ReadInt(t)
      case None => None
      case Some(r) => Some(Read(Number(r.value), r.rest))
    else ReadWord(t)
  }

  lemma ReadSpell(k: Token, rest: string)
    requires k.Number? ==> Ends(rest)
    ensures ReadToken(Spell(k) + rest) == Some(Read(k, rest))
  {
    match k
    case Text(s) => ReadSpelledText(s, rest);
    case Number(n) => ReadSpelledNumber(n, rest);
    case Word(b) => ReadSpelledWord(b, rest);
    case _ => ReadSpelledMark(k, rest);
  }

  lemma ReadTextToken(t: string, s: string, rest: string)
    requires t != "" && t[0] == '"' && ReadString(t) == Some(Read(s, rest))
    ensures ReadToken(t) == Some(Read(Text(s), rest))
  {
  }

  lemma ReadSpelledText(s: string, rest: string)
    ensures ReadToken(Quote(s) + rest) == Some(Read(Text(s), rest))
  {
    ReadQuote(s, rest);
    ReadTextToken(Quote(s) + rest, s, rest);
  }

  lemma ReadNumberToken(t: string, n: int, rest: string)
    requires t != "" && (t[0] == '-' || IsDigit(t[0])) && ReadInt(t) == Some(Read(n, rest))
    ensures ReadToken(t) == Some(Read(Number(n), rest))
  {
  }

  lemma ReadSpelledNumber(n: int, rest: string)
    requires Ends(rest)
    ensures ReadToken(Decimal(n) + rest) == Some(Read(Number(n), rest))
  {
    if n < 0 { ReadNegative(-n, rest); } else { ReadNonNegative(n, rest); }
    ReadNumberToken(Decimal(n) + rest, n, rest);
  }

  lemma ReadSpelledWord(b: bool, rest: string)
    ensures ReadToken(Spell(Word(b)) + rest) == Some(Read(Word(b), rest))
  {
  }

  lemma ReadSpelledMark(k: Token, rest: string)
    requires !k.Text? && !k.Number? && !k.Word?
    ensures ReadToken(Spell(k) + rest) == Some(Read(k, rest))
  {
  }

  function Lex(t: string): Option<seq<Token>>
    decreases |t|
  {
    if t == "" then Some([])
    else
      match ReadToken(t)
      case None => None
      case Some(r) =>
        match Lex(r.rest)
        case None => None
        case Some(ks) => Some([r.value] + ks)
  }

  /** No number stands beside a number, so no two run together in the text. */
  ghost predicate Spaced(ks: seq<Token>) {
    forall i :: 0 <= i < |ks| - 1 ==> !(ks[i].Number? && ks[i + 1].Number?)
  }

  lemma SpellStart(ks: seq<Token>)
    requires ks != [] ==> !ks[0].Number?
    ensures Ends(SpellAll(ks))
  {
  }

  lemma {:induction false} LexSpell(ks: seq<Token>)
    requires Spaced(ks)
    ensures Lex(SpellAll(ks)) == Some(ks)
  {
    if ks == [] {
    } else {
      var rest := SpellAll(ks[1..]);
      if ks[0].Number? { SpellStart(ks[1..]); }
      ReadSpell(ks[0], rest);
      LexSpell(ks[1..]);
      assert ks == [ks[0]] + ks[1..];
      assert SpellAll(ks) != "";
    }
  }

  /******* Trees *******/

  function Tokens(j: Json): seq<Token>
    decreases j, 2
  {
    match j
    case Str(s) => [Text(s)]
    case Int(n) => [Number(n)]
    case Bool(b) => [Word(b)]
    case Arr(items) => if items == [] then [OpenBracket, CloseBracket] else [OpenBracket] + ItemTokens(items)
    case Obj(members) => if members == [] then [OpenBrace, CloseBrace] else [OpenBrace] + MemberTokens(members)
  }

  /** The items, each followed by a comma or by the closing bracket. */
  function ItemTokens(items: seq<Json>): seq<Token>
    decreases items, 1
  {
    if items == [] then []
    else Tokens(items[0]) + [if |items| == 1 then CloseBracket else Comma] + ItemTokens(items[1..])
  }

  /** The members, each followed by a comma or by the closing brace. */
  function MemberTokens(members: seq<Member>): seq<Token>
    decreases members, 1
  {
    if members == [] then []
    else OneMember(members[0]) + [if |members| == 1 then CloseBrace else Comma] + MemberTokens(members[1..])
  }

  function OneMember(m: Member): seq<Token>
    decreases m, 3
  {
    [Text(m.key), Colon] + Tokens(m.value)
  }

  /** The canonical text: no white space, members in the order given. */
  function Print(j: Json): string {
    SpellAll(Tokens(j))
  }

  datatype Built<+T> = Built(value: T, rest: seq<Token>)

  function Build(ks: seq<Token>): (r: Option<Built<Json>>)
    ensures r.Some? ==> |r.value.rest| < |ks|
    decreases |ks|, 0
  {
    if ks == [] then None
    else match ks[0]
      case Text(s) => Some(Built(Str(s), ks[1..]))
      case Number(n) => Some(Built(Int(n), ks[1..]))
      case Word(b) => Some(Built(Bool(b), ks[1..]))
      case OpenBracket => BuildArr(ks[1..])
      case OpenBrace => BuildObj(ks[1..])
      case _ => None
  }

  function BuildArr(ks: seq<Token>): (r: Option<Built<Json>>)
    ensures r.Some? ==> |r.value.rest| < |ks|
    decreases |ks|, 2
  {
    if ks != [] && ks[0] == CloseBracket then Some(Built(Arr([]), ks[1..]))
    else
      match BuildItems(ks)
      case None => None
      case Some(b) => Some(Built(Arr(b.value), b.rest))
  }

  function BuildItems(ks: seq<Token>): (r: Option<Built<seq<Json>>>)
    ensures r.Some? ==> |r.value.rest| < |ks|
    decreases |ks|, 1
  {
    match Build(ks)
    case None => None
    case Some(b) =>
      if b.rest == [] then None
      else if b.rest[0] == CloseBracket then Some(Built([b.value], b.rest[1..]))
      else if b.rest[0] != Comma then None
      else match BuildItems(b.rest[1..])
        case None => None
        case Some(bs) => Some(Built([b.value] + bs.value, bs.rest))
  }

  function BuildObj(ks: seq<Token>): (r: Option<Built<Json>>)
    ensures r.Some? ==> |r.value.rest| < |ks|
    decreases |ks|, 2
  {
    if ks != [] && ks[0] == CloseBrace then Some(Built(Obj([]), ks[1..]))
    else
      match BuildMembers(ks)
      case None => None
      case Some(b) => Some(Built(Obj(b.value), b.rest))
  }

  function BuildMember(ks: seq<Token>): (r: Option<Built<Member>>)
    ensures r.Some? ==> |r.value.rest| < |ks|
    decreases |ks|, 0
  {
    if |ks| < 2 || !ks[0].Text? || ks[1] != Colon then None
    else
      match Build(ks[2..])
      case None => None
      case Some(b) => Some(Built(Member(ks[0].s, b.value), b.rest))
  }

  function BuildMembers(ks: seq<Token>): (r: Option<Built<seq<Member>>>)
    ensures r.Some? ==> |r.value.rest| < |ks|
    decreases |ks|, 1
  {
    match BuildMember(ks)
    case None => None
    case Some(b) =>
      if b.rest == [] then None
      else if b.rest[0] == CloseBrace then Some(Built([b.value], b.rest[1..]))
      else if b.rest[0] != Comma then None
      else match BuildMembers(b.rest[1..])
        case None => None
        case Some(bs) => Some(Built([b.value] + bs.value, bs.rest))
  }

  lemma TokensStart(j: Json)
    ensures Tokens(j) != [] && Tokens(j)[0] != CloseBracket
  {
  }

  /** Building what a tree was cut into gives the tree back and leaves what followed it. */
  lemma {:induction false} BuildTokens(j: Json, rest: seq<Token>)
    ensures Build(Tokens(j) + rest) == Some(Built(j, rest))
    decreases j, 2
  {
    var ks := Tokens(j) + rest;
    match j
    case Arr(items) =>
      assert ks[0] == OpenBracket;
      if items == [] {
        assert ks[1..][0] == CloseBracket && ks[1..][1..] == rest;
      } else {
        assert ks[1..] == ItemTokens(items) + rest;
        TokensStart(items[0]);
        assert ks[1] == Tokens(items[0])[0];
        BuildItemTokens(items, rest);
      }
    case Obj(members) =>
      assert ks[0] == OpenBrace;
      if members == [] {
        assert ks[1..][0] == CloseBrace && ks[1..][1..] == rest;
      } else {
        assert ks[1..] == MemberTokens(members) + rest;
        assert ks[1] == Text(members[0].key);
        BuildMemberTokens(members, rest);
      }
    case _ =>
      assert ks[1..] == rest;
  }

  lemma RegroupTokens(a: seq<Token>, b: seq<Token>, c: seq<Token>, d: seq<Token>)
    ensures a + b + c + d == a + (b + (c + d))
  {
  }

  lemma BuildItemsStep(ks: seq<Token>, item: Json, mark: Token, tail: seq<Token>, more: seq<Json>, rest: seq<Token>)
    requires Build(ks) == Some(Built(item, [mark] + tail))
    requires (mark == CloseBracket && more == [] && tail == rest)
          || (mark == Comma && BuildItems(tail) == Some(Built(more, rest)))
    ensures BuildItems(ks) == Some(Built([item] + more, rest))
  {
    assert ([mark] + tail)[1..] == tail;
    assert [item] + [] == [item];
  }

  lemma {:induction false} BuildItemTokens(items: seq<Json>, rest: seq<Token>)
    requires items != []
    ensures BuildItems(ItemTokens(items) + rest) == Some(Built(items, rest))
    decreases items, 1
  {
    var mark := if |items| == 1 then CloseBracket else Comma;
    var tail := ItemTokens(items[1..]) + rest;
    var ks := ItemTokens(items) + rest;
    RegroupTokens(Tokens(items[0]), [mark], ItemTokens(items[1..]), rest);
    BuildTokens(items[0], [mark] + tail);
    if |items| == 1 {
      assert ItemTokens(items[1..]) == [];
      assert tail == rest;
    } else {
      BuildItemTokens(items[1..], rest);
    }
    BuildItemsStep(ks, items[0], mark, tail, items[1..], rest);
    assert items == [items[0]] + items[1..];
  }

  lemma {:induction false} BuildOneMember(m: Member, rest: seq<Token>)
    ensures BuildMember(OneMember(m) + rest) == Some(Built(m, rest))
    decreases m, 3
  {
    var ks := OneMember(m) + rest;
    assert ks[0] == Text(m.key) && ks[1] == Colon && ks[2..] == Tokens(m.value) + rest;
    BuildTokens(m.value, rest);
  }

  lemma BuildMembersStep(ks: seq<Token>, m: Member, mark: Token, tail: seq<Token>, more: seq<Member>, rest: seq<Token>)
    requires BuildMember(ks) == Some(Built(m, [mark] + tail))
    requires (mark == CloseBrace && more == [] && tail == rest)
          || (mark == Comma && BuildMembers(tail) == Some(Built(more, rest)))
    ensures BuildMembers(ks) == Some(Built([m] + more, rest))
  {
    assert ([mark] + tail)[1..] == tail;
    assert [m] + [] == [m];
  }

  lemma {:induction false} BuildMemberTokens(members: seq<Member>, rest: seq<Token>)
    requires members != []
    ensures BuildMembers(MemberTokens(members) + rest) == Some(Built(members, rest))
    decreases members, 1
  {
    var mark := if |members| == 1 then CloseBrace else Comma;
    var tail := MemberTokens(members[1..]) + rest;
    var ks := MemberTokens(members) + rest;
    RegroupTokens(OneMember(members[0]), [mark], MemberTokens(members[1..]), rest);
    BuildOneMember(members[0], [mark] + tail);
    if |members| == 1 {
      assert MemberTokens(members[1..]) == [];
      assert tail == rest;
    } else {
      BuildMemberTokens(members[1..], rest);
    }
    BuildMembersStep(ks, members[0], mark, tail, members[1..], rest);
    assert members == [members[0]] + members[1..];
  }

  lemma SpacedAround(a: seq<Token>, mark: Token, b: seq<Token>)
    requires Spaced(a) && Spaced(b) && !mark.Number?
    ensures Spaced(a + [mark] + b)
  {
  }

  lemma {:induction false} TokensSpaced(j: Json)
    ensures Spaced(Tokens(j))
    decreases j, 2
  {
    match j
    case Arr(items) =>
      ItemTokensSpaced(items);
      SpacedAround([], OpenBracket, ItemTokens(items));
      assert [] + [OpenBracket] + ItemTokens(items) == [OpenBracket] + ItemTokens(items);
    case Obj(members) =>
      MemberTokensSpaced(members);
      SpacedAround([], OpenBrace, MemberTokens(members));
      assert [] + [OpenBrace] + MemberTokens(members) == [OpenBrace] + MemberTokens(members);
    case _ =>
  }

  lemma {:induction false} ItemTokensSpaced(items: seq<Json>)
    ensures Spaced(ItemTokens(items))
    decreases items, 1
  {
    if items == [] {
    } else {
      TokensSpaced(items[0]);
      ItemTokensSpaced(items[1..]);
      SpacedAround(Tokens(items[0]), if |items| == 1 then CloseBracket else Comma, ItemTokens(items[1..]));
    }
  }

  lemma {:induction false} MemberTokensSpaced(members: seq<Member>)
    ensures Spaced(MemberTokens(members))
    decreases members, 1
  {
    if members == [] {
    } else {
      OneMemberSpaced(members[0]);
      MemberTokensSpaced(members[1..]);
      SpacedAround(OneMember(members[0]), if |members| == 1 then CloseBrace else Comma, MemberTokens(members[1..]));
    }
  }

  lemma {:induction false} OneMemberSpaced(m: Member)
    ensures Spaced(OneMember(m))
    decreases m, 3
  {
    TokensSpaced(m.value);
    SpacedAround([Text(m.key)], Colon, Tokens(m.value));
    assert [Text(m.key)] + [Colon] + Tokens(m.value) == OneMember(m);
  }

  /** Reads a whole text. */
  function Parse(t: string): Option<Json> {
    match Lex(t)
    case None => None
    case Some(ks) =>
      match Build(ks)
      case None => None
      case Some(b) => if b.rest == [] then Some(b.value) else None
  }

  /** Every tree is recovered from its canonical text. */
  lemma ParsePrint(j: Json)
    ensures Parse(Print(j)) == Some(j)
  {
    TokensSpaced(j);
    LexSpell(Tokens(j));
    assert Tokens(j) + [] == Tokens(j);
    BuildTokens(j, []);
  }
}
