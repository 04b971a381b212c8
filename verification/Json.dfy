/** The compact JSON text `json.Marshal` writes (sections 3 to 7 of RFC 8259), and a reader that
    inverts it. Round-tripping makes the encoding injective and every encoded object self-delimiting. */
module Json {
  import opened Text
  import opened Wrappers

  datatype Json =
    | Null
    | Bool(b: bool)
    | Num(n: int)
    | Str(s: string)
    | Arr(items: seq<Json>)
    | Obj(members: seq<Member>)

  datatype Member = Member(name: string, value: Json)

  /** A list of strings as array elements. */
  function Strings(xs: seq<string>): seq<Json> {
    seq(|xs|, i requires 0 <= i < |xs| => Str(xs[i]))
  }

  // ---------- strings ----------

  function HexDigit(n: nat): (c: char)
    requires n < 16
  {
    if n < 10 then ('0' as int + n) as char else ('a' as int + n - 10) as char
  }

  function HexValue(c: char): (r: Option<nat>)
    ensures r.Some? ==> r.value < 16
  {
    if '0' <= c <= '9' then Some(c as int - '0' as int)
    else if 'a' <= c <= 'f' then Some(c as int - 'a' as int + 10)
    else None
  }

  /** The characters written as a four-digit escape: remaining control characters, the three
      HTML-significant ones, and the two separators JavaScript treats as line ends. */
  predicate NeedsHex(c: char) {
    c < ' ' || c in {'<', '>', '&', '\U{2028}', '\U{2029}'}
  }

  function Hex4(n: nat): string
    requires n < 0x10000
  {
    [HexDigit(n / 16 / 16 / 16), HexDigit(n / 16 / 16 % 16), HexDigit(n / 16 % 16), HexDigit(n % 16)]
  }

  function EscapeChar(c: char): string {
    if c == '"' then "\\\""
    else if c == '\\' then "\\\\"
    else if c == '\U{08}' then "\\b"
    else if c == '\U{0C}' then "\\f"
    else if c == '\n' then "\\n"
    else if c == '\r' then "\\r"
    else if c == '\t' then "\\t"
    else if NeedsHex(c) then "\\u" + Hex4(c as int)
    else [c]
  }

  function Escape(s: string): string {
    if s == "" then "" else EscapeChar(s[0]) + Escape(s[1..])
  }

  // ---------- encoding ----------

  function Encode(v: Json): string
    decreases v, 0
  {
    match v
    case Null => "null"
    case Bool(b) => if b then "true" else "false"
    case Num(n) => if n < 0 then "-" + Decimal(-n) else Decimal(n)
    case Str(s) => "\"" + Escape(s) + "\""
    case Arr(items) => "[" + EncodeItems(items)
    case Obj(members) => "{" + EncodeMembers(members)
  }

  /** The items and the closing bracket. */
  function EncodeItems(items: seq<Json>): string
    decreases items, 0
  {
    if items == [] then "]"
    else Encode(items[0]) + if |items| == 1 then "]" else "," + EncodeItems(items[1..])
  }

  function EncodeMembers(members: seq<Member>): string
    decreases members, 0
  {
    if members == [] then "}"
    else EncodeMember(members[0]) + if |members| == 1 then "}" else "," + EncodeMembers(members[1..])
  }

  function EncodeMember(m: Member): string
    decreases m, 0
  {
    "\"" + Escape(m.name) + "\":" + Encode(m.value)
  }

  // ---------- reading ----------

  function ReadHex4(s: string): (r: Option<nat>)
    ensures r.Some? ==> |s| >= 4 && r.value < 0x10000
  {
    if |s| < 4 then None
    else
      match (HexValue(s[0]), HexValue(s[1]), HexValue(s[2]), HexValue(s[3]))
      case (Some(a), Some(b), Some(c), Some(d)) => Some(((a * 16 + b) * 16 + c) * 16 + d)
      case _ => None
  }

  predicate IsScalar(n: nat) { n < 0xD800 || 0xE000 <= n < 0x110000 }

  /** One character of a string body, escaped or not. */
  function ReadChar(s: string): (r: Option<(char, string)>)
    ensures r.Some? ==> |r.value.1| < |s|
  {
    if s == "" || s[0] == '"' || s[0] < ' ' then None
    else if s[0] != '\\' then Some((s[0], s[1..]))
    else if |s| < 2 then None
    else
      match s[1]
      case '"' => Some(('"', s[2..]))
      case '\\' => Some(('\\', s[2..]))
      case 'b' => Some(('\U{08}', s[2..]))
      case 'f' => Some(('\U{0C}', s[2..]))
      case 'n' => Some(('\n', s[2..]))
      case 'r' => Some(('\r', s[2..]))
      case 't' => Some(('\t', s[2..]))
      case 'u' =>
        var h := ReadHex4(s[2..]);
        if h.Some? && IsScalar(h.value) then Some((h.value as char, s[6..])) else None
      case _ => None
  }

  /** A string body up to and including the closing quote. */
  function ReadBody(s: string): (r: Option<(string, string)>)
    ensures r.Some? ==> |r.value.1| < |s|
    decreases |s|
  {
    if s != "" && s[0] == '"' then Some(("", s[1..]))
    else
      match ReadChar(s)
      case None => None
      case Some((c, rest)) =>
        match ReadBody(rest)
        case None => None
        case Some((body, tail)) => Some(([c] + body, tail))
  }

  function ReadNatural(s: string): (r: Option<(nat, string)>)
    ensures r.Some? ==> |r.value.1| < |s|
  {
    if s != "" && IsDigit(s[0]) then Some(ReadDigits(DigitValue(s[0]), s[1..])) else None
  }

  function ReadValue(s: string): (r: Option<(Json, string)>)
    ensures r.Some? ==> |r.value.1| < |s|
    decreases |s|, 0
  {
    if s == "" then None
    else if s[0] == '"' then
      match ReadBody(s[1..]) case None => None case Some((body, rest)) => Some((Str(body), rest))
    else if s[0] == '[' then
      if |s| > 1 && s[1] == ']' then Some((Arr([]), s[2..]))
      else match ReadItems(s[1..]) case None => None case Some((items, rest)) => Some((Arr(items), rest))
    else if s[0] == '{' then
      if |s| > 1 && s[1] == '}' then Some((Obj([]), s[2..]))
      else match ReadMembers(s[1..]) case None => None case Some((members, rest)) => Some((Obj(members), rest))
    else if "null" <= s then Some((Null, s[4..]))
    else if "true" <= s then Some((Bool(true), s[4..]))
    else if "false" <= s then Some((Bool(false), s[5..]))
    else if s[0] == '-' then
      match ReadNatural(s[1..]) case None => None case Some((n, rest)) => Some((Num(0 - n), rest))
    else
      match ReadNatural(s) case None => None case Some((n, rest)) => Some((Num(n), rest))
  }

  function ReadItems(s: string): (r: Option<(seq<Json>, string)>)
    ensures r.Some? ==> |r.value.1| < |s|
    decreases |s|, 1
  {
    match ReadValue(s)
    case None => None
    case Some((v, rest)) =>
      if rest == "" then None
      else if rest[0] == ']' then Some(([v], rest[1..]))
      else if rest[0] == ',' then
        match ReadItems(rest[1..])
        case None => None
        case Some((vs, tail)) => Some(([v] + vs, tail))
      else None
  }

  function ReadMember(s: string): (r: Option<(Member, string)>)
    ensures r.Some? ==> |r.value.1| < |s|
    decreases |s|, 1
  {
    if s == "" || s[0] != '"' then None
    else
      match ReadBody(s[1..])
      case None => None
      case Some((name, rest)) =>
        if rest == "" || rest[0] != ':' then None
        else
          match ReadValue(rest[1..])
          case None => None
          case Some((v, tail)) => Some((Member(name, v), tail))
  }

  function ReadMembers(s: string): (r: Option<(seq<Member>, string)>)
    ensures r.Some? ==> |r.value.1| < |s|
    decreases |s|, 2
  {
    match ReadMember(s)
    case None => None
    case Some((m, rest)) =>
      if rest == "" then None
      else if rest[0] == '}' then Some(([m], rest[1..]))
      else if rest[0] == ',' then
        match ReadMembers(rest[1..])
        case None => None
        case Some((ms, tail)) => Some(([m] + ms, tail))
      else None
  }

  /** A whole text holding one value. */
  function Parse(s: string): Option<Json> {
    match ReadValue(s)
    case Some((v, "")) => Some(v)
    case _ => None
  }

  // ---------- round trip: strings ----------

  lemma HexValueInverts(n: nat)
    requires n < 16
    ensures HexValue(HexDigit(n)) == Some(n)
  {
  }

  lemma ReadHex4Inverts(n: nat, r: string)
    requires n < 0x10000
    ensures ReadHex4(Hex4(n) + r) == Some(n)
  {
    var s := Hex4(n) + r;
    var n1 := n / 16;
    var n2 := n1 / 16;
    var n3 := n2 / 16;
    assert s[0] == HexDigit(n3) && s[1] == HexDigit(n2 % 16) && s[2] == HexDigit(n1 % 16) && s[3] == HexDigit(n % 16);
    HexValueInverts(n3);
    HexValueInverts(n2 % 16);
    HexValueInverts(n1 % 16);
    HexValueInverts(n % 16);
    assert n2 == n3 * 16 + n2 % 16 && n1 == n2 * 16 + n1 % 16 && n == n1 * 16 + n % 16;
  }

  lemma ReadCharInverts(c: char, r: string)
    ensures ReadChar(EscapeChar(c) + r) == Some((c, r))
    ensures EscapeChar(c) != "" && EscapeChar(c)[0] != '"'
  {
    var s := EscapeChar(c) + r;
    if |EscapeChar(c)| == 1 {
      assert s[1..] == r;
    } else if |EscapeChar(c)| == 2 {
      assert s[2..] == r;
    } else {
      assert s[0] == '\\' && s[1] == 'u';
      assert s[2..] == Hex4(c as int) + r && s[6..] == r;
      ReadHex4Inverts(c as int, r);
    }
  }

  lemma {:induction false} ReadBodyInverts(s: string, r: string)
    ensures ReadBody(Escape(s) + "\"" + r) == Some((s, r))
  {
    var text := Escape(s) + "\"" + r;
    if s == "" {
      assert text == "\"" + r && text[1..] == r;
    } else {
      var rest := Escape(s[1..]) + "\"" + r;
      assert text == EscapeChar(s[0]) + rest;
      ReadCharInverts(s[0], rest);
      ReadBodyInverts(s[1..], r);
      assert [s[0]] + s[1..] == s;
    }
  }

  // ---------- round trip: values ----------

  /** What may follow a value without being swallowed by it. */
  predicate Ends(r: string) { r == "" || !IsDigit(r[0]) }

  lemma ReadNaturalInverts(n: nat, r: string)
    requires Ends(r)
    ensures ReadNatural(Decimal(n) + r) == Some((n, r))
  {
    var s := Decimal(n) + r;
    ReadDecimal(n, r);
    assert Decimal(n)[0] in Decimal(n);
    assert ReadDigits(0, s) == ReadDigits(DigitValue(s[0]), s[1..]);
  }

  lemma ReadNegativeInverts(n: nat, r: string)
    requires Ends(r)
    ensures ReadValue("-" + Decimal(n) + r) == Some((Num(0 - n), r))
  {
    var s := "-" + Decimal(n) + r;
    assert s == "-" + (Decimal(n) + r) && s[0] == '-' && s[1..] == Decimal(n) + r;
    ReadNaturalInverts(n, r);
  }

  lemma ReadNonNegativeInverts(n: nat, r: string)
    requires Ends(r)
    ensures ReadValue(Decimal(n) + r) == Some((Num(n), r))
  {
    var s := Decimal(n) + r;
    assert s[0] == Decimal(n)[0] && Decimal(n)[0] in Decimal(n);
    assert IsDigit(s[0]);
    ReadNaturalInverts(n, r);
  }

  lemma ReadNumInverts(n: int, r: string)
    requires Ends(r)
    ensures ReadValue(Encode(Num(n)) + r) == Some((Num(n), r))
  {
    if n < 0 { ReadNegativeInverts(-n, r); } else { ReadNonNegativeInverts(n, r); }
  }

  lemma FirstCharacter(v: Json)
    ensures Encode(v) != "" && Encode(v)[0] != ']'
  {
    if v.Num? && v.n >= 0 { assert Decimal(v.n)[0] in Decimal(v.n); }
  }

  lemma ReadStrInverts(s: string, r: string)
    ensures ReadValue("\"" + Escape(s) + "\"" + r) == Some((Str(s), r))
  {
    var text := "\"" + Escape(s) + "\"" + r;
    assert text == "\"" + (Escape(s) + "\"" + r) && text[1..] == Escape(s) + "\"" + r;
    ReadBodyInverts(s, r);
  }

  lemma ReadLiteralInverts(v: Json, r: string)
    requires v.Null? || v.Bool?
    ensures ReadValue(Encode(v) + r) == Some((v, r))
  {
    var s := Encode(v) + r;
    assert Encode(v) <= s && s[0] == Encode(v)[0] && s[|Encode(v)|..] == r;
    if v == Bool(true) { assert s[0] == 't'; assert "null"[0] == 'n'; }
    if v == Bool(false) { assert s[0] == 'f'; assert "null"[0] == 'n' && "true"[0] == 't'; }
  }

  lemma {:induction false} ReadValueInverts(v: Json, r: string)
    requires Ends(r)
    ensures ReadValue(Encode(v) + r) == Some((v, r))
    decreases v, 1
  {
    match v
    case Null => ReadLiteralInverts(v, r);
    case Bool(_) => ReadLiteralInverts(v, r);
    case Num(n) => ReadNumInverts(n, r);
    case Str(s) => ReadStrInverts(s, r);
    case Arr(_) => ReadArrayInverts(v, r);
    case Obj(_) => ReadObjectInverts(v, r);
  }

  lemma {:induction false} ReadArrayInverts(v: Json, r: string)
    requires v.Arr?
    ensures ReadValue(Encode(v) + r) == Some((v, r))
    decreases v, 0
  {
    var tail := EncodeItems(v.items) + r;
    var s := Encode(v) + r;
    assert s == "[" + tail && s[0] == '[' && s[1..] == tail;
    if v.items == [] {
      assert s[1] == ']' && s[2..] == r;
    } else {
      FirstCharacter(v.items[0]);
      assert s[1] == tail[0] == Encode(v.items[0])[0];
      ReadItemsInverts(v.items, r);
    }
  }

  lemma {:induction false} ReadObjectInverts(v: Json, r: string)
    requires v.Obj?
    ensures ReadValue(Encode(v) + r) == Some((v, r))
    decreases v, 0
  {
    var tail := EncodeMembers(v.members) + r;
    var s := Encode(v) + r;
    assert s == "{" + tail && s[0] == '{' && s[1..] == tail;
    if v.members == [] {
      assert s[1] == '}' && s[2..] == r;
    } else {
      assert EncodeMember(v.members[0])[0] == '"';
      assert s[1] == tail[0] == EncodeMember(v.members[0])[0];
      ReadMembersInverts(v.members, r);
    }
  }

  lemma {:induction false} ReadItemsInverts(items: seq<Json>, r: string)
    requires items != []
    ensures ReadItems(EncodeItems(items) + r) == Some((items, r))
    decreases items, 1
  {
    if |items| == 1 {
      assert EncodeItems(items) + r == Encode(items[0]) + ("]" + r);
      ReadValueInverts(items[0], "]" + r);
      ItemsLast(EncodeItems(items) + r, items[0], r);
      assert items == [items[0]];
    } else {
      var rest := EncodeItems(items[1..]) + r;
      assert EncodeItems(items) + r == Encode(items[0]) + ("," + rest);
      ReadValueInverts(items[0], "," + rest);
      ReadItemsInverts(items[1..], r);
      ItemsMore(EncodeItems(items) + r, items[0], rest, items[1..], r);
      assert items == [items[0]] + items[1..];
    }
  }

  lemma ItemsLast(s: string, v: Json, r: string)
    requires ReadValue(s) == Some((v, "]" + r))
    ensures ReadItems(s) == Some(([v], r))
  {
    assert ("]" + r)[1..] == r;
  }

  lemma ItemsMore(s: string, v: Json, rest: string, vs: seq<Json>, r: string)
    requires ReadValue(s) == Some((v, "," + rest)) && ReadItems(rest) == Some((vs, r))
    ensures ReadItems(s) == Some(([v] + vs, r))
  {
    assert ("," + rest)[1..] == rest;
  }

  lemma {:induction false} ReadMemberInverts(m: Member, r: string)
    requires Ends(r)
    ensures ReadMember(EncodeMember(m) + r) == Some((m, r))
    decreases m, 2
  {
    var s := EncodeMember(m) + r;
    var rest := ":" + (Encode(m.value) + r);
    assert s == "\"" + (Escape(m.name) + "\"" + rest) && s[1..] == Escape(m.name) + "\"" + rest;
    ReadBodyInverts(m.name, rest);
    assert rest[1..] == Encode(m.value) + r;
    ReadValueInverts(m.value, r);
  }

  lemma {:induction false} ReadMembersInverts(members: seq<Member>, r: string)
    requires members != []
    ensures ReadMembers(EncodeMembers(members) + r) == Some((members, r))
    decreases members, 1
  {
    var s := EncodeMembers(members) + r;
    MembersText(members, r);
    if |members| == 1 {
      ReadMemberInverts(members[0], "}" + r);
      MembersLast(s, members, r);
    } else {
      var rest := EncodeMembers(members[1..]) + r;
      ReadMemberInverts(members[0], "," + rest);
      ReadMembersInverts(members[1..], r);
      MembersMore(s, members, rest, r);
    }
  }

  lemma MembersText(members: seq<Member>, r: string)
    requires members != []
    ensures EncodeMembers(members) + r ==
            EncodeMember(members[0]) + if |members| == 1 then "}" + r else "," + (EncodeMembers(members[1..]) + r)
  {
    var head := EncodeMember(members[0]);
    if |members| == 1 {
      Associative(head, "}", r);
    } else {
      var rest := EncodeMembers(members[1..]);
      Associative(head, "," + rest, r);
      Associative(",", rest, r);
    }
  }

  lemma Associative(a: string, b: string, c: string)
    ensures (a + b) + c == a + (b + c)
  {
  }

  lemma MembersLast(s: string, members: seq<Member>, r: string)
    requires |members| == 1 && ReadMember(s) == Some((members[0], "}" + r))
    ensures ReadMembers(s) == Some((members, r))
  {
    assert ("}" + r)[1..] == r;
    assert members == [members[0]];
  }

  lemma MembersMore(s: string, members: seq<Member>, rest: string, r: string)
    requires members != [] && ReadMember(s) == Some((members[0], "," + rest))
    requires ReadMembers(rest) == Some((members[1..], r))
    ensures ReadMembers(s) == Some((members, r))
  {
    assert ("," + rest)[1..] == rest;
    assert members == [members[0]] + members[1..];
  }

  /** Main result: reading inverts writing. */
  lemma ParseEncode(v: Json)
    ensures Parse(Encode(v)) == Some(v)
  {
    ReadValueInverts(v, "");
    assert Encode(v) + "" == Encode(v);
  }

  lemma EncodeInjective(v: Json, w: Json)
    requires Encode(v) == Encode(w)
    ensures v == w
  {
    ParseEncode(v);
    ParseEncode(w);
  }

  /** Self-delimitation: two texts written one after the other without a separator can be told
      apart, provided the first of each pair is an object. */
  lemma ConcatenationInjective(v1: Json, w1: Json, v2: Json, w2: Json)
    requires v1.Obj? && v2.Obj? && Encode(v1) + Encode(w1) == Encode(v2) + Encode(w2)
    ensures v1 == v2 && w1 == w2
  {
    ReadObjectInverts(v1, Encode(w1));
    ReadObjectInverts(v2, Encode(w2));
    EncodeInjective(w1, w2);
  }

  /** Without that proviso they cannot: two numbers. */
  lemma NumbersRunTogether()
    ensures Encode(Num(1)) + Encode(Num(23)) == Encode(Num(12)) + Encode(Num(3))
    ensures Num(1) != Num(12)
  {
    assert Decimal(23) == Decimal(2) + [Digit(3)];
    assert Decimal(12) == Decimal(1) + [Digit(2)];
  }
}
