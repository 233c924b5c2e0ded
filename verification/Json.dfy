/** JSON text as serde_json prints and reads it: strings escaped after section 7 of RFC 8259,
    numbers kept as the text they were written in. */
module Json {
  datatype Member = Member(key: string, value: Value)

  datatype Value =
    | Null
    | Bool(b: bool)
    | Number(lexeme: string)
    | String(s: string)
    | Array(items: seq<Value>)
    | Object(members: seq<Member>)

  // ----- numbers -----

  predicate IsDigit(c: char) { '0' <= c <= '9' }

  predicate IsNumberChar(c: char) { IsDigit(c) || c == '-' || c == '+' || c == '.' || c == 'e' || c == 'E' }

  /** How many characters at the front satisfy the class. */
  function Span(s: string, inClass: char -> bool): nat
    ensures Span(s, inClass) <= |s|
  {
    if s != [] && inClass(s[0]) then 1 + Span(s[1..], inClass) else 0
  }

  predicate IsExponent(s: string) {
    s == "" ||
    ((s[0] == 'e' || s[0] == 'E') &&
     var d := if |s| > 1 && (s[1] == '+' || s[1] == '-') then s[2..] else s[1..];
     d != [] && Span(d, IsDigit) == |d|)
  }

  predicate IsFraction(s: string) {
    if s != [] && s[0] == '.' then
      var n := Span(s[1..], IsDigit);
      n > 0 && IsExponent(s[1 + n..])
    else IsExponent(s)
  }

  /** The number grammar of section 6 of RFC 8259. */
  predicate IsNumber(s: string) {
    var t := if s != [] && s[0] == '-' then s[1..] else s;
    var n := Span(t, IsDigit);
    n > 0 && (t[0] == '0' ==> n == 1) && IsFraction(t[n..])
  }

  // ----- strings -----

  const QUOTE := '\"'
  const BACKSLASH := '\\'
  const HEX := "0123456789abcdef"

  /** Quote, backslash and the control characters are escaped; everything else is written raw. */
  function Escape(c: char): string {
    if c == QUOTE then [BACKSLASH, QUOTE]
    else if c == BACKSLASH then [BACKSLASH, BACKSLASH]
    else if c == '\U{0008}' then [BACKSLASH, 'b']
    else if c == '\U{0009}' then [BACKSLASH, 't']
    else if c == '\U{000A}' then [BACKSLASH, 'n']
    else if c == '\U{000C}' then [BACKSLASH, 'f']
    else if c == '\U{000D}' then [BACKSLASH, 'r']
    else if c < ' ' then [BACKSLASH, 'u', '0', '0', HEX[c as int / 16], HEX[c as int % 16]]
    else [c]
  }

  function EscapeAll(s: string): string { if s == [] then [] else Escape(s[0]) + EscapeAll(s[1..]) }

  function Quoted(s: string): string { [QUOTE] + EscapeAll(s) + [QUOTE] }

  datatype Parsed<+T> = Fail | Ok(value: T, rest: string)

  function HexDigit(c: char): int {
    if '0' <= c <= '9' then c as int - '0' as int
    else if 'a' <= c <= 'f' then c as int - 'a' as int + 10
    else if 'A' <= c <= 'F' then c as int - 'A' as int + 10
    else -1
  }

  /** Four hexadecimal digits. */
  function HexWord(s: string): (r: Parsed<nat>)
    ensures r.Ok? ==> |s| >= 4 && r.rest == s[4..] && r.value < 0x1_0000
  {
    if |s| < 4 then Fail else
    var a, b, c, d := HexDigit(s[0]), HexDigit(s[1]), HexDigit(s[2]), HexDigit(s[3]);
    if a < 0 || b < 0 || c < 0 || d < 0 then Fail else Ok(((a * 16 + b) * 16 + c) * 16 + d, s[4..])
  }

  /** `\u` escapes: a lone surrogate is an error, a pair is one character. */
  function Unicode(s: string): (r: Parsed<char>)
    ensures r.Ok? ==> |r.rest| + 4 <= |s|
  {
    var u := HexWord(s);
    if u.Fail? then Fail
    else if u.value < 0xD800 || u.value >= 0xE000 then Ok(u.value as char, u.rest)
    else if u.value >= 0xDC00 || |u.rest| < 2 || u.rest[0] != BACKSLASH || u.rest[1] != 'u' then Fail
    else
      var v := HexWord(u.rest[2..]);
      if v.Fail? || v.value < 0xDC00 || v.value >= 0xE000 then Fail
      else Ok((0x1_0000 + (u.value - 0xD800) * 0x400 + (v.value - 0xDC00)) as char, v.rest)
  }

  /** What follows a backslash. */
  function Unescape(s: string): (r: Parsed<char>)
    ensures r.Ok? ==> |r.rest| < |s|
  {
    if s == [] then Fail
    else if s[0] == QUOTE then Ok(QUOTE, s[1..])
    else if s[0] == BACKSLASH then Ok(BACKSLASH, s[1..])
    else if s[0] == '/' then Ok('/', s[1..])
    else if s[0] == 'b' then Ok('\U{0008}', s[1..])
    else if s[0] == 't' then Ok('\U{0009}', s[1..])
    else if s[0] == 'n' then Ok('\U{000A}', s[1..])
    else if s[0] == 'f' then Ok('\U{000C}', s[1..])
    else if s[0] == 'r' then Ok('\U{000D}', s[1..])
    else if s[0] == 'u' then Unicode(s[1..])
    else Fail
  }

  /** One character inside a string literal. */
  function ReadChar(s: string): (r: Parsed<char>)
    ensures r.Ok? ==> |r.rest| < |s|
  {
    if s == [] || s[0] < ' ' then Fail
    else if s[0] == BACKSLASH then Unescape(s[1..])
    else Ok(s[0], s[1..])
  }

  /** The rest of a string literal, after its opening quote. */
  function ReadString(s: string): (r: Parsed<string>)
    ensures r.Ok? ==> |r.rest| < |s|
    decreases |s|
  {
    if s != [] && s[0] == QUOTE then Ok([], s[1..]) else
    var c := ReadChar(s);
    if c.Fail? then Fail else
    var tail := ReadString(c.rest);
    if tail.Fail? then Fail else Ok([c.value] + tail.value, tail.rest)
  }

  lemma HexRoundTrip(n: nat)
    requires n < 16
    ensures HexDigit(HEX[n]) == n
  {}

  lemma ReadEscaped(c: char, rest: string)
    ensures ReadChar(Escape(c) + rest) == Ok(c, rest)
    ensures Escape(c) != [] && Escape(c)[0] != QUOTE
  {
    var e := Escape(c);
    if |e| == 6 {
      var n := c as int;
      HexRoundTrip(n / 16);
      HexRoundTrip(n % 16);
      HexRoundTrip(0);
      assert (e + rest)[1..][1..] == e[2..] + rest;
      assert HexWord(e[2..] + rest) == Ok(n, rest);
    } else if |e| == 2 {
      assert (e + rest)[1..] == [e[1]] + rest;
    } else {
      assert (e + rest)[1..] == rest;
    }
  }

  /** Reading a quoted string gives back the string, whatever follows it. */
  lemma {:induction false} StringRoundTrip(s: string, rest: string)
    ensures ReadString(EscapeAll(s) + [QUOTE] + rest) == Ok(s, rest)
    decreases |s|
  {
    var text := EscapeAll(s) + [QUOTE] + rest;
    if s == [] {
      assert text == [QUOTE] + rest;
    } else {
      var tail := EscapeAll(s[1..]) + [QUOTE] + rest;
      assert text == Escape(s[0]) + tail;
      ReadEscaped(s[0], tail);
      assert text[0] == Escape(s[0])[0];
      StringRoundTrip(s[1..], rest);
      OneMoreChar(text, s[0], tail, s[1..], rest);
      assert [s[0]] + s[1..] == s;
    }
  }

  lemma OneMoreChar(text: string, c: char, tail: string, more: string, rest: string)
    requires text != [] && text[0] != QUOTE
    requires ReadChar(text) == Ok(c, tail) && ReadString(tail) == Ok(more, rest)
    ensures ReadString(text) == Ok([c] + more, rest)
  {}

  // ----- values -----

  function Print(v: Value): string {
    match v
    case Null => "null"
    case Bool(b) => if b then "true" else "false"
    case Number(lexeme) => lexeme
    case String(s) => Quoted(s)
    case Array(items) => "[" + PrintItems(items) + "]"
    case Object(members) => "{" + PrintMembers(members) + "}"
  }

  function PrintItems(items: seq<Value>): string {
    if items == [] then "" else Print(items[0]) + if |items| == 1 then "" else "," + PrintItems(items[1..])
  }

  function PrintMembers(members: seq<Member>): string {
    if members == [] then "" else
    PrintMember(members[0]) + if |members| == 1 then "" else "," + PrintMembers(members[1..])
  }

  function PrintMember(m: Member): string { Quoted(m.key) + ":" + Print(m.value) }

  predicate IsSpace(c: char) { c == ' ' || c == '\t' || c == '\n' || c == '\r' }

  function SkipSpace(s: string): (r: string)
    ensures |r| <= |s|
  {
    if s != [] && IsSpace(s[0]) then SkipSpace(s[1..]) else s
  }

  predicate StartsWith(s: string, prefix: string) { |prefix| <= |s| && s[..|prefix|] == prefix }

  /** `depth` is how many more nested arrays and objects are tolerated, counted as serde_json does. */
  function ReadValue(text: string, depth: nat): (r: Parsed<Value>)
    ensures r.Ok? ==> |r.rest| < |text|
    decreases |text|, 2
  {
    var s := SkipSpace(text);
    if s == [] then Fail
    else if s[0] == 'n' then if StartsWith(s, "null") then Ok(Null, s[4..]) else Fail
    else if s[0] == 't' then if StartsWith(s, "true") then Ok(Bool(true), s[4..]) else Fail
    else if s[0] == 'f' then if StartsWith(s, "false") then Ok(Bool(false), s[5..]) else Fail
    else if s[0] == QUOTE then
      var str := ReadString(s[1..]);
      if str.Fail? then Fail else Ok(String(str.value), str.rest)
    else if s[0] == '[' then
      if depth <= 1 then Fail else
      var t := SkipSpace(s[1..]);
      if t != [] && t[0] == ']' then Ok(Array([]), t[1..]) else
      var items := ReadItems(t, depth - 1);
      if items.Fail? then Fail else Ok(Array(items.value), items.rest)
    else if s[0] == '{' then
      if depth <= 1 then Fail else
      var t := SkipSpace(s[1..]);
      if t != [] && t[0] == '}' then Ok(Object([]), t[1..]) else
      var members := ReadMembers(t, depth - 1);
      if members.Fail? then Fail else Ok(Object(members.value), members.rest)
    else
      var n := Span(s, IsNumberChar);
      if n > 0 && IsNumber(s[..n]) then Ok(Number(s[..n]), s[n..]) else Fail
  }

  function ReadItems(text: string, depth: nat): (r: Parsed<seq<Value>>)
    ensures r.Ok? ==> |r.rest| < |text|
    decreases |text|, 3
  {
    var v := ReadValue(text, depth);
    if v.Fail? then Fail else
    var s := SkipSpace(v.rest);
    if s == [] then Fail
    else if s[0] == ']' then Ok([v.value], s[1..])
    else if s[0] != ',' then Fail
    else
      var tail := ReadItems(s[1..], depth);
      if tail.Fail? then Fail else Ok([v.value] + tail.value, tail.rest)
  }

  function ReadMember(text: string, depth: nat): (r: Parsed<Member>)
    ensures r.Ok? ==> |r.rest| < |text|
    decreases |text|, 3
  {
    var s := SkipSpace(text);
    if s == [] || s[0] != QUOTE then Fail else
    var key := ReadString(s[1..]);
    if key.Fail? then Fail else
    var t := SkipSpace(key.rest);
    if t == [] || t[0] != ':' then Fail else
    var v := ReadValue(t[1..], depth);
    if v.Fail? then Fail else Ok(Member(key.value, v.value), v.rest)
  }

  function ReadMembers(text: string, depth: nat): (r: Parsed<seq<Member>>)
    ensures r.Ok? ==> |r.rest| < |text|
    decreases |text|, 4
  {
    var m := ReadMember(text, depth);
    if m.Fail? then Fail else
    var s := SkipSpace(m.rest);
    if s == [] then Fail
    else if s[0] == '}' then Ok([m.value], s[1..])
    else if s[0] != ',' then Fail
    else
      var tail := ReadMembers(s[1..], depth);
      if tail.Fail? then Fail else Ok([m.value] + tail.value, tail.rest)
  }

  const DEPTH_LIMIT: nat := 128

  /** A whole text: one value and nothing but white space after it. */
  function Parse(text: string): Parsed<Value> {
    var v := ReadValue(text, DEPTH_LIMIT);
    if v.Ok? && SkipSpace(v.rest) == [] then Ok(v.value, []) else Fail
  }

  // ----- reading what was printed -----

  /** Numbers are well formed and arrays and objects nest less than `depth` deep. */
  predicate Printable(v: Value, depth: nat)
    decreases v
  {
    match v
    case Number(lexeme) => IsNumber(lexeme) && Span(lexeme, IsNumberChar) == |lexeme|
    case Array(items) => depth > 1 && forall i :: 0 <= i < |items| ==> Printable(items[i], depth - 1)
    case Object(members) => depth > 1 && forall i :: 0 <= i < |members| ==> Printable(members[i].value, depth - 1)
    case _ => true
  }

  /** The text after a value does not continue a number. */
  predicate Ends(rest: string) { rest == [] || !IsNumberChar(rest[0]) }

  lemma {:induction false} SpanPrefix(s: string, rest: string)
    requires Span(s, IsNumberChar) == |s| && Ends(rest)
    ensures Span(s + rest, IsNumberChar) == |s|
    decreases |s|
  {
    if s == [] {
      assert s + rest == rest;
    } else {
      assert (s + rest)[1..] == s[1..] + rest;
      SpanPrefix(s[1..], rest);
    }
  }

  lemma NumberRoundTrip(lexeme: string, rest: string, depth: nat)
    requires IsNumber(lexeme) && Span(lexeme, IsNumberChar) == |lexeme| && Ends(rest)
    ensures ReadValue(lexeme + rest, depth) == Ok(Number(lexeme), rest)
  {
    var s := lexeme + rest;
    assert IsNumberChar(s[0]) && s[0] == lexeme[0];
    NumberHead(lexeme);
    SpanPrefix(lexeme, rest);
    assert s[..|lexeme|] == lexeme && s[|lexeme|..] == rest;
  }

  lemma NumberHead(lexeme: string)
    requires IsNumber(lexeme)
    ensures lexeme != [] && (IsDigit(lexeme[0]) || lexeme[0] == '-')
  {}

  /** The first character of a printed value tells it apart from space, `]` and `}`. */
  lemma PrintHead(v: Value, depth: nat)
    requires Printable(v, depth)
    ensures var p := Print(v); p != [] && !IsSpace(p[0]) && p[0] != ']' && p[0] != '}'
  {
    if v.Number? { NumberHead(v.lexeme); }
  }

  lemma MemberHead(m: Member)
    ensures PrintMember(m) != [] && PrintMember(m)[0] == QUOTE
  {}

  /** A one-character opener, a body, a closer and what follows. */
  lemma Bracketed(open: char, body: string, close: string, rest: string)
    ensures ([open] + body + close) + rest == [open] + (body + close + rest)
    ensures (([open] + body + close) + rest)[1..] == body + close + rest
  {}

  lemma QuotedRoundTrip(s: string, rest: string)
    ensures (Quoted(s) + rest)[0] == QUOTE
    ensures ReadString((Quoted(s) + rest)[1..]) == Ok(s, rest)
  {
    Bracketed(QUOTE, EscapeAll(s), [QUOTE], rest);
    StringRoundTrip(s, rest);
  }

  lemma Head(first: string, sep: string, tail: string)
    requires |sep| == 1
    ensures first + sep + tail == first + (sep + tail)
    ensures (sep + tail)[0] == sep[0] && (sep + tail)[1..] == tail
  {}

  lemma ListText(first: string, tail: string, close: string, rest: string)
    ensures (first + ("," + tail)) + close + rest == first + ("," + (tail + close + rest))
    ensures (first + "") + close + rest == first + (close + rest)
  {}

  lemma LastItem(text: string, depth: nat, v: Value, rest: string)
    requires ReadValue(text, depth) == Ok(v, "]" + rest)
    ensures ReadItems(text, depth) == Ok([v], rest)
  {
    Head("", "]", rest);
  }

  lemma NextItem(text: string, depth: nat, v: Value, tail: string, vs: seq<Value>, rest: string)
    requires ReadValue(text, depth) == Ok(v, "," + tail) && ReadItems(tail, depth) == Ok(vs, rest)
    ensures ReadItems(text, depth) == Ok([v] + vs, rest)
  {
    Head("", ",", tail);
  }

  /** Printed items start with the first one. */
  lemma ItemsText(items: seq<Value>, rest: string)
    requires items != []
    ensures PrintItems(items) + "]" + rest ==
            Print(items[0]) + if |items| == 1 then "]" + rest else "," + (PrintItems(items[1..]) + "]" + rest)
  {
    ListText(Print(items[0]), if |items| == 1 then "" else PrintItems(items[1..]), "]", rest);
  }

  lemma {:induction false} ItemsRoundTrip(items: seq<Value>, rest: string, depth: nat)
    requires items != [] && forall i :: 0 <= i < |items| ==> Printable(items[i], depth)
    ensures ReadItems(PrintItems(items) + "]" + rest, depth) == Ok(items, rest)
    decreases items, 0
  {
    ItemsText(items, rest);
    if |items| == 1 {
      ValueRoundTrip(items[0], "]" + rest, depth);
      LastItem(PrintItems(items) + "]" + rest, depth, items[0], rest);
      assert items == [items[0]];
    } else {
      var tail := PrintItems(items[1..]) + "]" + rest;
      ValueRoundTrip(items[0], "," + tail, depth);
      ItemsRoundTrip(items[1..], rest, depth);
      NextItem(PrintItems(items) + "]" + rest, depth, items[0], tail, items[1..], rest);
      assert items == [items[0]] + items[1..];
    }
  }

  lemma MemberText(key: string, value: string, rest: string)
    ensures (key + ":" + value) + rest == key + (":" + (value + rest))
    ensures (":" + (value + rest))[1..] == value + rest
  {}

  lemma {:induction false} MemberRoundTrip(m: Member, rest: string, depth: nat)
    requires Printable(m.value, depth) && Ends(rest)
    ensures ReadMember(PrintMember(m) + rest, depth) == Ok(m, rest)
    decreases m
  {
    MemberText(Quoted(m.key), Print(m.value), rest);
    QuotedRoundTrip(m.key, ":" + (Print(m.value) + rest));
    ValueRoundTrip(m.value, rest, depth);
  }

  lemma LastMember(text: string, depth: nat, m: Member, rest: string)
    requires ReadMember(text, depth) == Ok(m, "}" + rest)
    ensures ReadMembers(text, depth) == Ok([m], rest)
  {
    Head("", "}", rest);
  }

  lemma NextMember(text: string, depth: nat, m: Member, tail: string, ms: seq<Member>, rest: string)
    requires ReadMember(text, depth) == Ok(m, "," + tail) && ReadMembers(tail, depth) == Ok(ms, rest)
    ensures ReadMembers(text, depth) == Ok([m] + ms, rest)
  {
    Head("", ",", tail);
  }

  lemma MembersText(members: seq<Member>, rest: string)
    requires members != []
    ensures PrintMembers(members) + "}" + rest ==
            PrintMember(members[0]) +
            if |members| == 1 then "}" + rest else "," + (PrintMembers(members[1..]) + "}" + rest)
  {
    ListText(PrintMember(members[0]), if |members| == 1 then "" else PrintMembers(members[1..]), "}", rest);
  }

  lemma {:induction false} MembersRoundTrip(members: seq<Member>, rest: string, depth: nat)
    requires members != [] && forall i :: 0 <= i < |members| ==> Printable(members[i].value, depth)
    ensures ReadMembers(PrintMembers(members) + "}" + rest, depth) == Ok(members, rest)
    decreases members, 0
  {
    var m := members[0];
    MembersText(members, rest);
    if |members| == 1 {
      MemberRoundTrip(m, "}" + rest, depth);
      LastMember(PrintMembers(members) + "}" + rest, depth, m, rest);
      assert members == [m];
    } else {
      var tail := PrintMembers(members[1..]) + "}" + rest;
      MemberRoundTrip(m, "," + tail, depth);
      MembersRoundTrip(members[1..], rest, depth);
      NextMember(PrintMembers(members) + "}" + rest, depth, m, tail, members[1..], rest);
      assert members == [m] + members[1..];
    }
  }

  /** Reading a printed value gives back the value and leaves what follows it. */
  lemma {:induction false} ValueRoundTrip(v: Value, rest: string, depth: nat)
    requires Printable(v, depth) && Ends(rest)
    ensures ReadValue(Print(v) + rest, depth) == Ok(v, rest)
    decreases v
  {
    match v
    case Null => assert (Print(v) + rest)[..4] == "null" && (Print(v) + rest)[4..] == rest;
    case Bool(b) =>
      assert (Print(v) + rest)[..|Print(v)|] == Print(v) && (Print(v) + rest)[|Print(v)|..] == rest;
    case Number(lexeme) => NumberRoundTrip(lexeme, rest, depth);
    case String(s) => QuotedRoundTrip(s, rest);
    case Array(items) => ArrayRoundTrip(items, rest, depth);
    case Object(members) => ObjectRoundTrip(members, rest, depth);
  }

  lemma {:induction false} ArrayRoundTrip(items: seq<Value>, rest: string, depth: nat)
    requires Printable(Array(items), depth)
    ensures ReadValue(Print(Array(items)) + rest, depth) == Ok(Array(items), rest)
    decreases items, 1
  {
    var inner := PrintItems(items) + "]" + rest;
    Bracketed('[', PrintItems(items), "]", rest);
    if items == [] {
      assert inner == "]" + rest && inner[1..] == rest;
    } else {
      PrintHead(items[0], depth - 1);
      assert inner[0] == Print(items[0])[0];
      ItemsRoundTrip(items, rest, depth - 1);
    }
  }

  lemma {:induction false} ObjectRoundTrip(members: seq<Member>, rest: string, depth: nat)
    requires Printable(Object(members), depth)
    ensures ReadValue(Print(Object(members)) + rest, depth) == Ok(Object(members), rest)
    decreases members, 1
  {
    var inner := PrintMembers(members) + "}" + rest;
    Bracketed('{', PrintMembers(members), "}", rest);
    if members == [] {
      assert inner == "}" + rest && inner[1..] == rest;
    } else {
      MemberHead(members[0]);
      assert inner[0] == PrintMember(members[0])[0];
      MembersRoundTrip(members, rest, depth - 1);
    }
  }

  // ----- no raw control characters -----

  predicate Visible(s: string) { forall i :: 0 <= i < |s| ==> s[i] >= ' ' }

  lemma {:induction false} EscapedIsVisible(s: string)
    ensures Visible(EscapeAll(s))
    decreases |s|
  {
    if s != [] {
      EscapedIsVisible(s[1..]);
      assert Visible(Escape(s[0]));
    }
  }

  lemma {:induction false} NumberIsVisible(s: string)
    requires Span(s, IsNumberChar) == |s|
    ensures Visible(s)
    decreases |s|
  {
    if s != [] {
      NumberIsVisible(s[1..]);
      assert s == [s[0]] + s[1..];
    }
  }

  /** Printing leaves no control character raw, so a printed value never contains a line break. */
  lemma {:induction false} PrintIsVisible(v: Value, depth: nat)
    requires Printable(v, depth)
    ensures Visible(Print(v))
    decreases v
  {
    match v
    case Null =>
    case Bool(_) =>
    case Number(lexeme) => NumberIsVisible(lexeme);
    case String(s) => EscapedIsVisible(s);
    case Array(items) => ItemsAreVisible(items, depth - 1);
    case Object(members) => MembersAreVisible(members, depth - 1);
  }

  lemma {:induction false} ItemsAreVisible(items: seq<Value>, depth: nat)
    requires forall i :: 0 <= i < |items| ==> Printable(items[i], depth)
    ensures Visible(PrintItems(items))
    decreases items
  {
    if items != [] {
      PrintIsVisible(items[0], depth);
      if |items| > 1 { ItemsAreVisible(items[1..], depth); }
    }
  }

  lemma {:induction false} MembersAreVisible(members: seq<Member>, depth: nat)
    requires forall i :: 0 <= i < |members| ==> Printable(members[i].value, depth)
    ensures Visible(PrintMembers(members))
    decreases members
  {
    if members != [] {
      EscapedIsVisible(members[0].key);
      PrintIsVisible(members[0].value, depth);
      assert Visible(PrintMember(members[0]));
      if |members| > 1 { MembersAreVisible(members[1..], depth); }
    }
  }
}
