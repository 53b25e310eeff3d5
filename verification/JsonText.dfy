/**
 JSON text as the event log writes it: compact, one value to a line.

 Numbers are kept as their tokens. Objects keep their members in order; the
 program's objects never repeat a key.
 */
module JsonText {
  import opened Options

  datatype Json =
    | Null
    | Bool(b: bool)
    | Num(token: string)
    | Str(s: string)
    | Arr(items: Items)
    | Obj(members: Members)

  datatype Items = NoItems | Item(value: Json, rest: Items)
  datatype Members = NoMembers | Member(key: string, value: Json, rest: Members)

  // ------------------------------------------------------------------
  // Writing
  // ------------------------------------------------------------------

  function HexDigit(n: nat): (c: char)
    requires n < 16
  {
    "0123456789abcdef"[n]
  }

  /** How one character appears between quotes. */
  function Escape(c: char): string {
    if c == '"' then "\\\""
    else if c == '\\' then "\\\\"
    else if c == '\n' then "\\n"
    else if c == '\r' then "\\r"
    else if c == '\t' then "\\t"
    else if c as int == 8 then "\\b"
    else if c as int == 12 then "\\f"
    else if c as int < 32 then "\\u00" + [HexDigit(c as int / 16), HexDigit(c as int % 16)]
    else [c]
  }

  function EscapeAll(s: string): string {
    if s == "" then "" else Escape(s[0]) + EscapeAll(s[1..])
  }

  function Quote(s: string): string {
    "\"" + EscapeAll(s) + "\""
  }

  predicate IsNumChar(c: char) {
    '0' <= c <= '9' || c == '-' || c == '+' || c == '.' || c == 'e' || c == 'E'
  }

  /** A token begins with a digit or a minus sign. */
  predicate IsNumToken(t: string) {
    t != "" && ('0' <= t[0] <= '9' || t[0] == '-') && forall i :: 0 <= i < |t| ==> IsNumChar(t[i])
  }

  function Write(v: Json): string {
    match v
    case Null => "null"
    case Bool(b) => if b then "true" else "false"
    case Num(t) => t
    case Str(s) => Quote(s)
    case Arr(items) => if items == NoItems then "[]" else "[" + WriteItems(items) + "]"
    case Obj(members) => if members == NoMembers then "{}" else "{" + WriteMembers(members) + "}"
  }

  function WriteItems(items: Items): string {
    match items
    case NoItems => ""
    case Item(v, rest) => if rest == NoItems then Write(v) else Write(v) + "," + WriteItems(rest)
  }

  function WriteMembers(members: Members): string {
    match members
    case NoMembers => ""
    case Member(k, v, rest) =>
      var first := Quote(k) + ":" + Write(v);
      if rest == NoMembers then first else first + "," + WriteMembers(rest)
  }

  // ------------------------------------------------------------------
  // Reading
  // ------------------------------------------------------------------

  type Parsed<T> = Option<(T, string)>

  function ReadLiteral(s: string, word: string, v: Json): (r: Parsed<Json>)
    requires word != ""
    ensures r.Some? ==> |r.value.1| < |s|
  {
    if |word| <= |s| && s[..|word|] == word then Some((v, s[|word|..])) else None
  }

  function HexValue(c: char): (n: Option<nat>)
    ensures n.Some? ==> n.value < 16
  {
    if '0' <= c <= '9' then Some(c as int - '0' as int)
    else if 'a' <= c <= 'f' then Some(c as int - 'a' as int + 10)
    else if 'A' <= c <= 'F' then Some(c as int - 'A' as int + 10)
    else None
  }

  /** The character that a one-letter escape stands for. */
  function Unescape(c: char): Option<char> {
    if c == '"' || c == '\\' || c == '/' then Some(c)
    else if c == 'n' then Some('\n')
    else if c == 'r' then Some('\r')
    else if c == 't' then Some('\t')
    else if c == 'b' then Some(8 as char)
    else if c == 'f' then Some(12 as char)
    else None
  }

  /** One character between quotes, escaped or not. Escapes above U+00FF are not produced by `Escape`. */
  function ReadChar(s: string): (r: Parsed<char>)
    ensures r.Some? ==> |r.value.1| < |s|
  {
    if s == "" || s[0] == '"' || s[0] as int < 32 then None
    else if s[0] != '\\' then Some((s[0], s[1..]))
    else if |s| < 2 then None
    else if s[1] == 'u' then
      if |s| < 6 || s[2] != '0' || s[3] != '0' then None
      else match (HexValue(s[4]), HexValue(s[5]))
        case (Some(h), Some(l)) => Some(((h * 16 + l) as char, s[6..]))
        case _ => None
    else match Unescape(s[1])
      case Some(c) => Some((c, s[2..]))
      case None => None
  }

  /** The rest of a string literal, its opening quote already read. */
  function ReadChars(s: string): (r: Parsed<string>)
    ensures r.Some? ==> |r.value.1| < |s|
    decreases |s|
  {
    if s == "" then None
    else if s[0] == '"' then Some(("", s[1..]))
    else match ReadChar(s)
      case None => None
      case Some((c, s1)) =>
        match ReadChars(s1)
        case None => None
        case Some((cs, s2)) => Some(([c] + cs, s2))
  }

  function ReadString(s: string): (r: Parsed<string>)
    ensures r.Some? ==> |r.value.1| < |s|
  {
    if s == "" || s[0] != '"' then None else ReadChars(s[1..])
  }

  /** Length of the longest run of number characters. */
  function NumRun(s: string): (n: nat)
    ensures n <= |s|
  {
    if s == "" || !IsNumChar(s[0]) then 0 else 1 + NumRun(s[1..])
  }

  function Read(s: string): (r: Parsed<Json>)
    ensures r.Some? ==> |r.value.1| < |s|
    decreases |s|, 2
  {
    if s == "" then None
    else if s[0] == '"' then
      match ReadString(s) case None => None case Some((t, s1)) => Some((Str(t), s1))
    else if s[0] == '[' then
      if |s| > 1 && s[1] == ']' then Some((Arr(NoItems), s[2..]))
      else match ReadItems(s[1..]) case None => None case Some((items, s1)) => Some((Arr(items), s1))
    else if s[0] == '{' then
      if |s| > 1 && s[1] == '}' then Some((Obj(NoMembers), s[2..]))
      else match ReadMembers(s[1..]) case None => None case Some((members, s1)) => Some((Obj(members), s1))
    else if s[0] == 'n' then ReadLiteral(s, "null", Null)
    else if s[0] == 't' then ReadLiteral(s, "true", Bool(true))
    else if s[0] == 'f' then ReadLiteral(s, "false", Bool(false))
    else
      var n := NumRun(s);
      if IsNumToken(s[..n]) then Some((Num(s[..n]), s[n..])) else None
  }

  /** One or more values separated by commas, and the closing bracket. */
  function ReadItems(s: string): (r: Parsed<Items>)
    ensures r.Some? ==> |r.value.1| < |s|
    decreases |s|, 3
  {
    match Read(s)
    case None => None
    case Some((v, s1)) =>
      if s1 == "" then None
      else if s1[0] == ']' then Some((Item(v, NoItems), s1[1..]))
      else if s1[0] != ',' then None
      else match ReadItems(s1[1..])
        case None => None
        case Some((rest, s2)) => Some((Item(v, rest), s2))
  }

  function ReadMembers(s: string): (r: Parsed<Members>)
    ensures r.Some? ==> |r.value.1| < |s|
    decreases |s|, 3
  {
    match ReadString(s)
    case None => None
    case Some((k, s0)) =>
      if s0 == "" || s0[0] != ':' then None
      else match Read(s0[1..])
        case None => None
        case Some((v, s1)) =>
          if s1 == "" then None
          else if s1[0] == '}' then Some((Member(k, v, NoMembers), s1[1..]))
          else if s1[0] != ',' then None
          else match ReadMembers(s1[1..])
            case None => None
            case Some((rest, s2)) => Some((Member(k, v, rest), s2))
  }

  /** A whole text holds one value and nothing after it. */
  function Parse(text: string): Option<Json> {
    match Read(text)
    case None => None
    case Some((v, rest)) => if rest == "" then Some(v) else None
  }

  // ------------------------------------------------------------------
  // Reading undoes writing
  // ------------------------------------------------------------------

  ghost predicate WellFormed(v: Json) {
    match v
    case Num(t) => IsNumToken(t)
    case Arr(items) => ItemsWellFormed(items)
    case Obj(members) => MembersWellFormed(members)
    case _ => true
  }

  ghost predicate ItemsWellFormed(items: Items) {
    match items
    case NoItems => true
    case Item(v, rest) => WellFormed(v) && ItemsWellFormed(rest)
  }

  ghost predicate MembersWellFormed(members: Members) {
    match members
    case NoMembers => true
    case Member(_, v, rest) => WellFormed(v) && MembersWellFormed(rest)
  }

  lemma {:induction false} EscapeReads(c: char, rest: string)
    ensures ReadChar(Escape(c) + rest) == Some((c, rest))
    ensures Escape(c) != "" && Escape(c)[0] != '"'
  {
    var e := Escape(c);
    var s := e + rest;
    assert s[|e|..] == rest;
    if c as int < 32 && |e| == 6 {
      assert s[4] == HexDigit(c as int / 16) && s[5] == HexDigit(c as int % 16);
      assert HexValue(s[4]) == Some(c as int / 16) && HexValue(s[5]) == Some(c as int % 16);
    }
  }

  lemma {:induction false} EscapeAllReads(s: string, rest: string)
    ensures ReadChars(EscapeAll(s) + "\"" + rest) == Some((s, rest))
  {
    var text := EscapeAll(s) + "\"" + rest;
    if s == "" {
      assert text == "\"" + rest;
    } else {
      var tail := EscapeAll(s[1..]) + "\"" + rest;
      assert text == Escape(s[0]) + tail;
      EscapeReads(s[0], tail);
      EscapeAllReads(s[1..], rest);
      assert s == [s[0]] + s[1..];
    }
  }

  lemma {:induction false} QuoteReads(s: string, rest: string)
    ensures ReadString(Quote(s) + rest) == Some((s, rest))
    ensures Quote(s)[0] == '"'
  {
    EscapeAllReads(s, rest);
    assert (Quote(s) + rest)[1..] == EscapeAll(s) + "\"" + rest;
  }

  /** What may follow a value in a text: nothing, or a character that ends a number. */
  predicate Ends(rest: string) {
    rest == "" || !IsNumChar(rest[0])
  }

  lemma {:induction false} NumRunReads(t: string, rest: string)
    requires (forall i :: 0 <= i < |t| ==> IsNumChar(t[i])) && Ends(rest)
    ensures NumRun(t + rest) == |t|
  {
    if t == "" {
      assert t + rest == rest;
    } else {
      assert (t + rest)[1..] == t[1..] + rest;
      NumRunReads(t[1..], rest);
    }
  }

  /** The first character of a value tells its kind; none begins with a bracket that closes. */
  lemma {:induction false} FirstChar(v: Json)
    requires WellFormed(v)
    ensures Write(v) != "" && Write(v)[0] != ']' && Write(v)[0] != '}' && Write(v)[0] as int > 32
  {
    if v.Str? {
      QuoteReads(v.s, "");
    }
  }

  lemma {:induction false} LiteralReads(word: string, v: Json, rest: string)
    requires word != ""
    ensures ReadLiteral(word + rest, word, v) == Some((v, rest))
  {
    assert (word + rest)[..|word|] == word && (word + rest)[|word|..] == rest;
  }

  lemma {:induction false} NumReads(t: string, rest: string)
    requires IsNumToken(t) && Ends(rest)
    ensures Read(t + rest) == Some((Num(t), rest))
  {
    NumRunReads(t, rest);
    var text := t + rest;
    assert text[..|t|] == t && text[|t|..] == rest;
    assert text[0] == t[0];
  }

  lemma {:induction false} EmptyReads(rest: string)
    ensures Read("[]" + rest) == Some((Arr(NoItems), rest))
    ensures Read("{}" + rest) == Some((Obj(NoMembers), rest))
  {
    assert ("[]" + rest)[2..] == rest && ("{}" + rest)[2..] == rest;
  }

  lemma {:induction false} WriteReads(v: Json, rest: string)
    requires WellFormed(v) && Ends(rest)
    ensures Read(Write(v) + rest) == Some((v, rest))
    decreases v, 1
  {
    match v
    case Null => LiteralReads("null", Null, rest);
    case Bool(b) => LiteralReads(if b then "true" else "false", v, rest);
    case Num(t) => NumReads(t, rest);
    case Str(s) => QuoteReads(s, rest);
    case Arr(items) =>
      if items == NoItems {
        EmptyReads(rest);
      } else {
        ArrReads(items, rest);
      }
    case Obj(members) =>
      if members == NoMembers {
        EmptyReads(rest);
      } else {
        ObjReads(members, rest);
      }
  }

  lemma {:induction false} ArrReads(items: Items, rest: string)
    requires items != NoItems && ItemsWellFormed(items)
    ensures Read("[" + WriteItems(items) + "]" + rest) == Some((Arr(items), rest))
    decreases items, 2
  {
    var text := "[" + WriteItems(items) + "]" + rest;
    ItemsRead(items, rest);
    assert text[1..] == WriteItems(items) + "]" + rest;
    FirstChar(items.value);
    assert text[1] == WriteItems(items)[0] == Write(items.value)[0];
  }

  lemma {:induction false} ObjReads(members: Members, rest: string)
    requires members != NoMembers && MembersWellFormed(members)
    ensures Read("{" + WriteMembers(members) + "}" + rest) == Some((Obj(members), rest))
    decreases members, 2
  {
    hide Write, WriteMembers, ReadMembers, ReadItems, ReadString;
    var text := "{" + WriteMembers(members) + "}" + rest;
    MembersRead(members, rest);
    assert text[1..] == WriteMembers(members) + "}" + rest;
    assert text[1] == '"';
  }

  lemma {:induction false} ItemsRead(items: Items, rest: string)
    requires items != NoItems && ItemsWellFormed(items)
    ensures ReadItems(WriteItems(items) + "]" + rest) == Some((items, rest))
    decreases items, 1
  {
    hide Write, Read;
    var text := WriteItems(items) + "]" + rest;
    if items.rest == NoItems {
      WriteReads(items.value, "]" + rest);
      assert text == Write(items.value) + ("]" + rest);
    } else {
      var tail := WriteItems(items.rest) + "]" + rest;
      WriteReads(items.value, "," + tail);
      assert text == Write(items.value) + ("," + tail);
      ItemsRead(items.rest, rest);
      assert ("," + tail)[1..] == tail;
    }
  }

  lemma {:induction false} MembersRead(members: Members, rest: string)
    requires members != NoMembers && MembersWellFormed(members)
    ensures ReadMembers(WriteMembers(members) + "}" + rest) == Some((members, rest))
    ensures WriteMembers(members) != "" && WriteMembers(members)[0] == '"'
    decreases members, 1
  {
    var k, v := members.key, members.value;
    var more := WriteMembers(members.rest) + "}" + rest;
    var tail := if members.rest == NoMembers then "}" + rest else "," + more;
    FirstMemberReads(k, v, tail);
    MembersText(members, rest, tail, more);
    if members.rest != NoMembers {
      MembersRead(members.rest, rest);
    }
    OneMember(Quote(k) + ":" + Write(v) + tail, k, ":" + Write(v) + tail, v, tail);
  }

  lemma {:induction false} MembersText(members: Members, rest: string, tail: string, more: string)
    requires members != NoMembers && more == WriteMembers(members.rest) + "}" + rest
    requires tail == if members.rest == NoMembers then "}" + rest else "," + more
    ensures WriteMembers(members) + "}" + rest == Quote(members.key) + ":" + Write(members.value) + tail
    ensures WriteMembers(members) != "" && WriteMembers(members)[0] == '"'
    ensures tail[1..] == if members.rest == NoMembers then rest else more
  {
    var first := Quote(members.key) + ":" + Write(members.value);
    if members.rest == NoMembers {
      assert WriteMembers(members) + "}" + rest == first + ("}" + rest);
    } else {
      assert first + "," + WriteMembers(members.rest) + "}" + rest == first + ("," + more);
    }
  }

  /** One step of reading members, once the key and the value are known to read. */
  lemma {:induction false} OneMember(s: string, k: string, s0: string, v: Json, s1: string)
    requires ReadString(s) == Some((k, s0)) && s0 != "" && s0[0] == ':'
    requires Read(s0[1..]) == Some((v, s1)) && s1 != "" && (s1[0] == '}' || s1[0] == ',')
    ensures s1[0] == '}' ==> ReadMembers(s) == Some((Member(k, v, NoMembers), s1[1..]))
    ensures s1[0] == ',' && ReadMembers(s1[1..]).Some? ==>
              ReadMembers(s) == Some((Member(k, v, ReadMembers(s1[1..]).value.0), ReadMembers(s1[1..]).value.1))
  {
  }

  lemma {:induction false} FirstMemberReads(k: string, v: Json, tail: string)
    requires WellFormed(v) && Ends(tail)
    ensures var text := Quote(k) + ":" + Write(v) + tail;
            && ReadString(text) == Some((k, ":" + Write(v) + tail))
            && Read((":" + Write(v) + tail)[1..]) == Some((v, tail))
    decreases v, 2
  {
    var after := ":" + Write(v) + tail;
    QuoteReads(k, after);
    assert Quote(k) + ":" + Write(v) + tail == Quote(k) + after;
    assert after[1..] == Write(v) + tail;
    WriteReads(v, tail);
  }

  /** Parsing undoes writing, for every value. */
  lemma {:induction false} ParseUndoesWrite(v: Json)
    requires WellFormed(v)
    ensures Parse(Write(v)) == Some(v)
  {
    WriteReads(v, "");
    assert Write(v) + "" == Write(v);
  }

  // ------------------------------------------------------------------
  // A value is one line
  // ------------------------------------------------------------------

  lemma {:induction false} EscapedIsOneLine(s: string)
    ensures '\n' !in EscapeAll(s)
  {
    if s != "" {
      EscapedIsOneLine(s[1..]);
      assert '\n' !in Escape(s[0]);
    }
  }

  /** Written values contain no line break. */
  lemma {:induction false} WriteIsOneLine(v: Json)
    requires WellFormed(v)
    ensures '\n' !in Write(v)
    decreases v
  {
    match v
    case Str(s) => EscapedIsOneLine(s);
    case Arr(items) => ItemsAreOneLine(items);
    case Obj(members) => MembersAreOneLine(members);
    case _ =>
  }

  lemma {:induction false} ItemsAreOneLine(items: Items)
    requires ItemsWellFormed(items)
    ensures '\n' !in WriteItems(items)
    decreases items
  {
    match items
    case NoItems =>
    case Item(v, rest) =>
      WriteIsOneLine(v);
      ItemsAreOneLine(rest);
  }

  lemma {:induction false} MembersAreOneLine(members: Members)
    requires MembersWellFormed(members)
    ensures '\n' !in WriteMembers(members)
    decreases members
  {
    match members
    case NoMembers =>
    case Member(k, v, rest) =>
      EscapedIsOneLine(k);
      WriteIsOneLine(v);
      MembersAreOneLine(rest);
  }
}
